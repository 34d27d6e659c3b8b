# Participant credential assembler

A Dafny model of the logic behind the "Create Participant" form of a Gaia-X
onboarding UI. The form takes three inputs: a registration (VAT) number, a
headquarters address code and a legal address code. It assembles them into a
fixed-shape Verifiable Credential of type `gx:LegalPerson`, whose first
`@context` entry is the one the W3C Verifiable Credentials Data Model v2.0
prescribes (`https://www.w3.org/ns/credentials/v2`). The address codes are ISO
3166-2 subdivision codes such as `FR-75`. The model also covers the
country-code search popover, which validates a two-letter code and links to
the Wikipedia page of that country's subdivision codes.

Modules:

- `Wrappers`: the `Option` type, standing for the source's `T | null`.
- `Ascii`: ASCII letters and `toUpperCase`/`toLowerCase` restricted to ASCII.
- `Iso3166`: the two reference tables of the `iso-3166` package as entry
  types, and `Find`, the first-match search of `Array.prototype.find`. The
  table contents are parameters of the model.
- `ParticipantForm`: the lookups `FindParentByCode` and `FindCountryByCode`,
  `GetCountryByRegisterNumber`, `VerifyRegisterNumber` and the address
  preview rule. `Assemble` is the specification of one submission. The
  `Form` class holds the component's state. Its `HandleSubmit` method follows
  the handler step by step, with its early returns, and is proved to leave
  the state that `Assemble` prescribes.
- `CountryCodeSearch`: the two-letter validator, the link target, and the
  `Popover` class holding the typed code.

Notes on how the model reads the code:

- JavaScript truthiness is written out. The handler tests `!headquartersCountry`,
  so a subdivision whose parent is the empty string counts as unresolved,
  exactly like a missing one (`IsTruthy`).
- The address `gx:countryCode` in the credential is the parent code
  upper-cased (src/ParticipantForm.tsx:126,138), not the parent as stored.
- `findCountryByCode` runs the alpha-2 search even when the parent is `null`.
  Every alpha-2 code is a string, so nothing matches `null`. The model
  returns none straight away, which gives the same result.
- On a rejected submission, only the error message changes. A credential
  shown by an earlier submission stays on show. The code keeps the old
  output, and the model follows the code.
- A credential is issued as soon as both parents resolve. Either
  `gx:countryName` may still be null (`SampleIssued` exhibits one).

## Model

| member | source | states |
|---|---|---|
| `Iso3166.Find` | src/ParticipantForm.tsx:18 | the result is none exactly when no element matches; otherwise it is the element at the first matching index |
| `ParticipantForm.FindParentByCode` | src/ParticipantForm.tsx:17-20 | none exactly when no subdivision has the upper-cased code; otherwise the parent of the first subdivision that has it |
| `ParticipantForm.FindParentIgnoresCase` | src/ParticipantForm.tsx:17-20 | the parent lookup gives the same answer for a code and for its upper- and lower-case forms |
| `ParticipantForm.FindCountryByCode` | src/ParticipantForm.tsx:27-31 | none when the subdivision is unknown or no country has its parent as alpha-2 code; otherwise the name of the first country that has it |
| `ParticipantForm.FindCountryIgnoresCase` | src/ParticipantForm.tsx:27-31 | the country-name lookup gives the same answer for a code and for its upper- and lower-case forms |
| `ParticipantForm.GetCountryByRegisterNumber` | src/ParticipantForm.tsx:38-41 | the result has length min(2, length of input), and each character is the upper case of the input's character at that position |
| `ParticipantForm.ValidNumberHasCountryPrefix` | src/ParticipantForm.tsx:38-41 | for a valid registration number, the prefix is two upper-case ASCII letters and equals the first two characters of the upper-cased number |
| `ParticipantForm.VerifyRegisterNumber` | src/ParticipantForm.tsx:49-59 | no error exactly when the length is 10 or 11 and the first two characters are ASCII letters; the length message exactly when the length is neither 10 nor 11, whatever the content; the letter message exactly when the length is admissible and the prefix is not two letters |
| `ParticipantForm.VerifyIgnoresCase` | src/ParticipantForm.tsx:87-90 | validating the upper-cased number, as the handler does, gives the same answer as validating the number as typed |
| `ParticipantForm.PreviewCountry` | src/ParticipantForm.tsx:188-191 | the address preview is "Desconocido" for an empty input; otherwise it is the one- or two-character upper-cased prefix of the input |
| `ParticipantForm.AssembleValidatesFirst` | src/ParticipantForm.tsx:86-94 | a number of the wrong length is rejected with the length message, and a number of the right length without two leading letters with the letter message, whatever the addresses |
| `ParticipantForm.AssembleIssuedIff` | src/ParticipantForm.tsx:90-107 | a submission is issued exactly when the number is valid and both addresses resolve to a non-empty parent; a valid number that is not issued gets the single resolution message |
| `ParticipantForm.UnknownAddressIsRejected` | src/ParticipantForm.tsx:97-107 | with a valid number, an address code absent from the subdivision table, as headquarters or as legal address, makes the submission fail with the resolution message |
| `ParticipantForm.IssuedCredentialFields` | src/ParticipantForm.tsx:110-142 | an issued credential has the fixed contexts, id, types and issuer, and the given issuance date; `gx:vatID` is the upper-cased number; its `gx:countryCode` is the first two characters, which are upper-case letters; each address has the upper-cased parent as `gx:countryCode` and the looked-up name as `gx:countryName` |
| `ParticipantForm.SampleIssued` | src/ParticipantForm.tsx:76-149 | with a two-entry subdivision table, ("FR-75", "FR12345678", "de-be") is issued with FR/France, DE with no name, and VAT id FR12345678 with country FR |
| `ParticipantForm.SampleInvalidNumbers` | src/ParticipantForm.tsx:49-59 | "F1234567" gets the length message and "121234567X" the letter message |
| `ParticipantForm.SampleUnknownAddress` | src/ParticipantForm.tsx:103-107 | a legal address missing from the table gets the resolution message |
| `ParticipantForm.Form.constructor` | src/ParticipantForm.tsx:178-184 | the form starts with empty inputs, no previews, no error message and no output |
| `ParticipantForm.Form.OnRegistrationNumberChange` | src/ParticipantForm.tsx:223 | typing stores the registration number as typed |
| `ParticipantForm.Form.OnHeadquartersAddressChange` | src/ParticipantForm.tsx:239-242 | typing stores the headquarters address and sets its preview to the preview rule's value |
| `ParticipantForm.Form.OnLegalAddressChange` | src/ParticipantForm.tsx:257-260 | typing stores the legal address and sets its preview to the preview rule's value |
| `ParticipantForm.Form.HandleSubmit` | src/ParticipantForm.tsx:76-149 | on a rejection the error message is set and the previous output is kept; on success the output is the assembled credential and the error message is cleared; nothing else changes |
| `ParticipantForm.Form.Submit` | src/ParticipantForm.tsx:204 | submitting runs the handler on the inputs as currently stored, with the same outcome |
| `CountryCodeSearch.IsValid2LetterCountryCode` | src/CountryCodeSearch.tsx:21-24 | true exactly when the input has length 2 and both characters are ASCII letters |
| `CountryCodeSearch.ValidityIgnoresCase` | src/CountryCodeSearch.tsx:23 | a code, its upper case and its lower case are accepted or rejected together |
| `CountryCodeSearch.WikipediaHref` | src/CountryCodeSearch.tsx:52 | the link is the Wikipedia ISO 3166-2 page prefix followed by the code upper-cased, character by character |
| `CountryCodeSearch.HrefOfValidCode` | src/CountryCodeSearch.tsx:52 | for a valid code, the link is the prefix followed by exactly two upper-case letters, and it is the same for the code's upper- and lower-case forms |
| `CountryCodeSearch.Popover.constructor` | src/CountryCodeSearch.tsx:19 | the search input starts empty and no link is shown |
| `CountryCodeSearch.Popover.Link` | src/CountryCodeSearch.tsx:47-52 | a link is shown exactly when the stored code is valid, and it points at that code's page |
| `CountryCodeSearch.Popover.OnChange` | src/CountryCodeSearch.tsx:43-44 | typing sets the stored code to the typed value |
| `CountryCodeSearch.Popover.OnLinkClick` | src/CountryCodeSearch.tsx:55 | following the link clears the stored code, after which no link is shown |

## Left out

- Rendering: the JSX, Chakra UI layout and styling, the error `Alert`, the clipboard button and the "Go Back" button (`setFormSelected`). These are presentation only.
- The popover's open and close behaviour, and the `target="_blank"` navigation itself. Only the stored code and the link target are modelled.
- `JSON.stringify` and `console.log`: `jsonOutput` holds the credential as a datatype rather than its pretty-printed text. Because of this, no serialise-then-parse round trip is stated.
- `new Date().toISOString()`: the issuance date is a parameter of `HandleSubmit`, `Submit` and `Assemble`, and its format is not checked.
- `event.preventDefault()` and the `async` marking of the handler. The handler never awaits, so it runs to completion in one step.
- The contents of the `iso-3166` tables. They are parameters, and only the entry fields the code reads are kept (`code` and `parent`; `alpha2` and `name`).
- Unicode: case mapping is limited to ASCII letters. JavaScript's `toUpperCase` also maps other characters, some of them to longer strings, and `length` counts UTF-16 code units where the model counts characters.
- `ParticipantForm.VerifyIgnoresCase`, `ParticipantForm.FindParentIgnoresCase`, `ParticipantForm.FindCountryIgnoresCase` and `CountryCodeSearch.ValidityIgnoresCase` hold only under this ASCII mapping. In JavaScript, `"ſ".toUpperCase()` is `"S"`, so the search validator rejects "ſs" but accepts its upper case "SS". Likewise `"ß".toUpperCase()` is `"SS"`, so the handler gives "ab123456ßß" the length message, because upper-casing lengthens it to 12, while the model accepts its length.
- `src/getCountries.tsx` (an unused network lookup), `src/App.tsx`, `src/StepperSelector.tsx` and `src/main.tsx` are not part of this model.
