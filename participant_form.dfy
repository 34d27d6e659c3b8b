/**
 * The participant form: validation of the registration number, resolution of
 * the two address codes through the ISO 3166 tables, and the assembly of the
 * Gaia-X LegalPerson Verifiable Credential that the form shows as its output.
 */
module ParticipantForm {
  import opened Wrappers
  import opened Ascii
  import opened Iso3166

  const LengthMessage := "The registration number must be between 9 and 12 characters in length."
  const PrefixMessage := "The registration number must be started with two letters."
  const ResolutionMessage := "Failed to obtain country information for the provided addresses."
  /** What the address preview shows when no country prefix can be taken. */
  const UnknownCountry := "Desconocido"

  /** The fixed parts of the credential (W3C Verifiable Credentials Data Model v2.0 context first). */
  const Contexts: seq<string> := ["https://www.w3.org/ns/credentials/v2", "https://w3id.org/gaia-x/development#"]
  const CredentialId := "https://arlabdevelopments.com/.well-known/gaia-x-loire/loireParticipantArsysInternet.json"
  const CredentialTypes: seq<string> := ["VerifiableCredential", "gx:LegalPerson"]
  const Issuer := "did:web:gx-compliance.arsys.es:v1"
  const AddressType := "gx:Address"
  const VatIdType := "gx:VatID"

  datatype Address = Address(kind: string, countryCode: string, countryName: Option<string>)
  datatype VatId = VatId(kind: string, vatID: string, countryCode: string)
  datatype CredentialSubject = CredentialSubject(
    id: string,
    headquartersAddress: Address,
    registrationNumber: seq<VatId>,
    legalAddress: Address)
  datatype Credential = Credential(
    context: seq<string>,
    id: string,
    kinds: seq<string>,
    issuer: string,
    issuanceDate: string,
    credentialSubject: CredentialSubject)

  /** What one submission of the form comes to: an error message, or a credential. */
  datatype Submission = Rejected(message: string) | Issued(credential: Credential)

  /** JavaScript truthiness of a `string | null`: null and "" are both false. */
  predicate IsTruthy(s: Option<string>) {
    s.Some? && s.value != ""
  }

  ghost predicate IsFirstWithCode(subdivisions: seq<Subdivision>, code: string, i: int) {
    0 <= i < |subdivisions| && subdivisions[i].code == code
    && forall j :: 0 <= j < i ==> subdivisions[j].code != code
  }

  ghost predicate IsFirstWithAlpha2(countries: seq<Country>, alpha2: string, i: int) {
    0 <= i < |countries| && countries[i].alpha2 == alpha2
    && forall j :: 0 <= j < i ==> countries[j].alpha2 != alpha2
  }

  /** The parent country of the first subdivision whose code is `code` upper-cased. */
  function FindParentByCode(subdivisions: seq<Subdivision>, code: string): (parent: Option<string>)
    ensures parent.None? <==> forall i :: 0 <= i < |subdivisions| ==> subdivisions[i].code != Upper(code)
    ensures parent.Some? ==>
      exists i :: IsFirstWithCode(subdivisions, Upper(code), i) && subdivisions[i].parent == parent.value
  {
    var key := Upper(code);
    var matches := (e: Subdivision) => e.code == key;
    match Find(subdivisions, matches)
    case None => None
    case Some(entry) =>
      assert exists i :: IsFirstWithCode(subdivisions, key, i) && subdivisions[i].parent == entry.parent by {
        var i :| IsFirstMatch(subdivisions, matches, i) && subdivisions[i] == entry;
        assert IsFirstWithCode(subdivisions, key, i);
      }
      Some(entry.parent)
  }

  /**
   * The name of the country that the subdivision `code` belongs to: none when
   * the subdivision is unknown, otherwise the name of the first country whose
   * alpha-2 code is the subdivision's parent, or none if there is no such country.
   */
  function FindCountryByCode(tables: Tables, code: string): (name: Option<string>)
    ensures FindParentByCode(tables.subdivisions, code).None? ==> name.None?
    ensures FindParentByCode(tables.subdivisions, code).Some? ==>
      var parent := FindParentByCode(tables.subdivisions, code).value;
      && (name.None? <==> forall i :: 0 <= i < |tables.countries| ==> tables.countries[i].alpha2 != parent)
      && (name.Some? ==>
            exists i :: IsFirstWithAlpha2(tables.countries, parent, i) && tables.countries[i].name == name.value)
  {
    match FindParentByCode(tables.subdivisions, code)
    case None => None
    case Some(parent) =>
      var matches := (c: Country) => c.alpha2 == parent;
      match Find(tables.countries, matches)
      case None => None
      case Some(country) =>
        assert exists i :: IsFirstWithAlpha2(tables.countries, parent, i) && tables.countries[i].name == country.name by {
          var i :| IsFirstMatch(tables.countries, matches, i) && tables.countries[i] == country;
          assert IsFirstWithAlpha2(tables.countries, parent, i);
        }
        Some(country.name)
  }

  /** The country prefix of a registration number: its first two characters (fewer if it is shorter), upper-cased. */
  function GetCountryByRegisterNumber(registrationNumber: string): (country: string)
    ensures |country| == if |registrationNumber| < 2 then |registrationNumber| else 2
    ensures forall i :: 0 <= i < |country| ==> country[i] == UpperChar(registrationNumber[i])
  {
    var prefix := if |registrationNumber| < 2 then registrationNumber else registrationNumber[..2];
    Upper(prefix)
  }

  /** The regular expression `^[A-Za-z]{2}`. */
  predicate StartsWithTwoLetters(s: string) {
    |s| >= 2 && IsLetter(s[0]) && IsLetter(s[1])
  }

  /**
   * None when the registration number is valid, otherwise the error message:
   * the length check comes first, the letter prefix is only looked at for a
   * number of an admissible length.
   */
  function VerifyRegisterNumber(registrationNumber: string): (error: Option<string>)
    ensures error.None? <==> (|registrationNumber| == 10 || |registrationNumber| == 11) && StartsWithTwoLetters(registrationNumber)
    ensures error == Some(LengthMessage) <==> |registrationNumber| != 10 && |registrationNumber| != 11
    ensures error == Some(PrefixMessage) <==>
      (|registrationNumber| == 10 || |registrationNumber| == 11) && !StartsWithTwoLetters(registrationNumber)
  {
    if |registrationNumber| < 12 && |registrationNumber| > 9 then
      if !StartsWithTwoLetters(registrationNumber) then Some(PrefixMessage) else None
    else
      Some(LengthMessage)
  }

  /** What the address preview shows for a typed address: its country prefix, or "Desconocido" when that is empty. */
  function PreviewCountry(code: string): (shown: string)
    ensures code == "" ==> shown == UnknownCountry
    ensures code != "" ==> 1 <= |shown| <= 2 && shown == GetCountryByRegisterNumber(code)
  {
    var countryName := GetCountryByRegisterNumber(code);
    if countryName == "" then UnknownCountry else countryName
  }

  /** The fixed-shape credential around the values of one submission. */
  function MakeCredential(
    issuanceDate: string,
    headquartersCode: string, headquartersName: Option<string>,
    vatID: string, vatCountryCode: string,
    legalCode: string, legalName: Option<string>): Credential
  {
    Credential(
      Contexts, CredentialId, CredentialTypes, Issuer, issuanceDate,
      CredentialSubject(
        CredentialId,
        Address(AddressType, headquartersCode, headquartersName),
        [VatId(VatIdType, vatID, vatCountryCode)],
        Address(AddressType, legalCode, legalName)))
  }

  /**
   * The specification of one submission: upper-case the three inputs, reject
   * an invalid registration number, reject when either address does not
   * resolve to a (non-empty) parent country, and otherwise issue the credential.
   */
  function Assemble(tables: Tables, headquartersAddress: string, registrationNumber: string,
                    legalAddress: string, issuanceDate: string): Submission
  {
    var normalizedHeadquarters := Upper(headquartersAddress);
    var normalizedRegistration := Upper(registrationNumber);
    var normalizedLegal := Upper(legalAddress);
    match VerifyRegisterNumber(normalizedRegistration)
    case Some(registrationError) => Rejected(registrationError)
    case None =>
      var headquartersParent := FindParentByCode(tables.subdivisions, normalizedHeadquarters);
      var legalParent := FindParentByCode(tables.subdivisions, normalizedLegal);
      if !IsTruthy(headquartersParent) || !IsTruthy(legalParent) then
        Rejected(ResolutionMessage)
      else
        Issued(MakeCredential(
          issuanceDate,
          Upper(headquartersParent.value), FindCountryByCode(tables, normalizedHeadquarters),
          normalizedRegistration, GetCountryByRegisterNumber(normalizedRegistration),
          Upper(legalParent.value), FindCountryByCode(tables, normalizedLegal)))
  }

  // ---------------------------------------------------------------------------
  // Properties of the lookups and of the validation

  /** The subdivision lookup does not depend on the case of its input. */
  lemma FindParentIgnoresCase(subdivisions: seq<Subdivision>, code: string)
    ensures FindParentByCode(subdivisions, Upper(code)) == FindParentByCode(subdivisions, code)
    ensures FindParentByCode(subdivisions, Lower(code)) == FindParentByCode(subdivisions, code)
  {
  }

  /** Neither does the country-name lookup. */
  lemma FindCountryIgnoresCase(tables: Tables, code: string)
    ensures FindCountryByCode(tables, Upper(code)) == FindCountryByCode(tables, code)
    ensures FindCountryByCode(tables, Lower(code)) == FindCountryByCode(tables, code)
  {
  }

  /** Validation gives the same answer before and after upper-casing. */
  lemma VerifyIgnoresCase(registrationNumber: string)
    ensures VerifyRegisterNumber(Upper(registrationNumber)) == VerifyRegisterNumber(registrationNumber)
  {
  }

  /** The prefix of a valid registration number is a two-letter upper-case code. */
  lemma ValidNumberHasCountryPrefix(registrationNumber: string)
    requires VerifyRegisterNumber(registrationNumber).None?
    ensures var country := GetCountryByRegisterNumber(registrationNumber);
      |country| == 2 && IsUpperLetter(country[0]) && IsUpperLetter(country[1])
      && country == Upper(registrationNumber)[..2]
  {
  }

  // ---------------------------------------------------------------------------
  // Properties of a submission

  /**
   * Validation comes first: an invalid registration number is rejected with
   * its own message whatever the two addresses are.
   */
  lemma AssembleValidatesFirst(tables: Tables, headquartersAddress: string, registrationNumber: string,
                               legalAddress: string, issuanceDate: string)
    ensures |registrationNumber| != 10 && |registrationNumber| != 11 ==>
      Assemble(tables, headquartersAddress, registrationNumber, legalAddress, issuanceDate) == Rejected(LengthMessage)
    ensures (|registrationNumber| == 10 || |registrationNumber| == 11) && !StartsWithTwoLetters(registrationNumber) ==>
      Assemble(tables, headquartersAddress, registrationNumber, legalAddress, issuanceDate) == Rejected(PrefixMessage)
  {
  }

  /**
   * A submission is issued exactly when the registration number is valid and
   * both addresses resolve to a non-empty parent; every other submission with
   * a valid number is rejected with the one resolution message. The country
   * names play no part.
   */
  lemma AssembleIssuedIff(tables: Tables, headquartersAddress: string, registrationNumber: string,
                          legalAddress: string, issuanceDate: string)
    ensures Assemble(tables, headquartersAddress, registrationNumber, legalAddress, issuanceDate).Issued? <==>
      && VerifyRegisterNumber(registrationNumber).None?
      && IsTruthy(FindParentByCode(tables.subdivisions, headquartersAddress))
      && IsTruthy(FindParentByCode(tables.subdivisions, legalAddress))
    ensures (VerifyRegisterNumber(registrationNumber).None?
      && !Assemble(tables, headquartersAddress, registrationNumber, legalAddress, issuanceDate).Issued?) ==>
      Assemble(tables, headquartersAddress, registrationNumber, legalAddress, issuanceDate) == Rejected(ResolutionMessage)
  {
  }

  /** An unknown subdivision code, for either address, makes a valid submission fail to resolve. */
  lemma UnknownAddressIsRejected(tables: Tables, headquartersAddress: string, registrationNumber: string,
                                 legalAddress: string, issuanceDate: string)
    requires VerifyRegisterNumber(registrationNumber).None?
    requires || (forall i :: 0 <= i < |tables.subdivisions| ==> tables.subdivisions[i].code != Upper(headquartersAddress))
             || (forall i :: 0 <= i < |tables.subdivisions| ==> tables.subdivisions[i].code != Upper(legalAddress))
    ensures Assemble(tables, headquartersAddress, registrationNumber, legalAddress, issuanceDate) == Rejected(ResolutionMessage)
  {
  }

  /** The fields of an issued credential, in terms of the raw inputs. */
  lemma IssuedCredentialFields(tables: Tables, headquartersAddress: string, registrationNumber: string,
                               legalAddress: string, issuanceDate: string)
    requires Assemble(tables, headquartersAddress, registrationNumber, legalAddress, issuanceDate).Issued?
    ensures var c := Assemble(tables, headquartersAddress, registrationNumber, legalAddress, issuanceDate).credential;
      var s := c.credentialSubject;
      && c.context == Contexts && c.context[0] == "https://www.w3.org/ns/credentials/v2"
      && c.id == CredentialId && c.kinds == CredentialTypes && c.issuer == Issuer
      && c.issuanceDate == issuanceDate
      && s.id == CredentialId
      && |s.registrationNumber| == 1
      && s.registrationNumber[0].kind == VatIdType
      && s.registrationNumber[0].vatID == Upper(registrationNumber)
      && s.registrationNumber[0].countryCode == Upper(registrationNumber)[..2]
      && IsUpperLetter(s.registrationNumber[0].countryCode[0]) && IsUpperLetter(s.registrationNumber[0].countryCode[1])
      && s.headquartersAddress.kind == AddressType
      && s.headquartersAddress.countryCode == Upper(FindParentByCode(tables.subdivisions, headquartersAddress).value)
      && s.headquartersAddress.countryName == FindCountryByCode(tables, headquartersAddress)
      && s.legalAddress.kind == AddressType
      && s.legalAddress.countryCode == Upper(FindParentByCode(tables.subdivisions, legalAddress).value)
      && s.legalAddress.countryName == FindCountryByCode(tables, legalAddress)
  {
    VerifyIgnoresCase(registrationNumber);
    ValidNumberHasCountryPrefix(Upper(registrationNumber));
    FindParentIgnoresCase(tables.subdivisions, headquartersAddress);
    FindParentIgnoresCase(tables.subdivisions, legalAddress);
    FindCountryIgnoresCase(tables, headquartersAddress);
    FindCountryIgnoresCase(tables, legalAddress);
  }

  /** A small stand-in for the two tables, in which Germany has no country entry. */
  const SampleTables := Tables(
    [Subdivision("FR-75", "FR"), Subdivision("DE-BE", "DE")],
    [Country("FR", "France")])

  /** The upper case of the sample inputs. */
  lemma SampleUpperCase()
    ensures Upper("FR12345678") == "FR12345678" && Upper("FR-75") == "FR-75"
    ensures Upper("de-be") == "DE-BE" && Upper("DE-BE") == "DE-BE" && Upper("ES-M") == "ES-M"
  {
  }

  /** The country prefix of the sample registration number. */
  lemma SamplePrefix()
    ensures GetCountryByRegisterNumber("FR12345678") == "FR"
  {
  }

  /** A valid sample: the legal address resolves to Germany although no country name is found for it. */
  lemma SampleIssued(issuanceDate: string)
    ensures var outcome := Assemble(SampleTables, "FR-75", "FR12345678", "de-be", issuanceDate);
      && outcome.Issued?
      && outcome.credential.credentialSubject.headquartersAddress == Address(AddressType, "FR", Some("France"))
      && outcome.credential.credentialSubject.legalAddress == Address(AddressType, "DE", None)
      && outcome.credential.credentialSubject.registrationNumber == [VatId(VatIdType, "FR12345678", "FR")]
  {
    SampleUpperCase();
    assert FindParentByCode(SampleTables.subdivisions, "FR-75") == Some("FR");
    assert FindParentByCode(SampleTables.subdivisions, "DE-BE") == Some("DE");
    assert FindCountryByCode(SampleTables, "FR-75") == Some("France");
    assert FindCountryByCode(SampleTables, "DE-BE") == None;
    SamplePrefix();
  }

  /** A sample that is too short and one without a letter prefix. */
  lemma SampleInvalidNumbers(issuanceDate: string)
    ensures Assemble(SampleTables, "FR-75", "F1234567", "FR-75", issuanceDate) == Rejected(LengthMessage)
    ensures Assemble(SampleTables, "FR-75", "121234567X", "FR-75", issuanceDate) == Rejected(PrefixMessage)
  {
  }

  /** A sample whose legal address is not in the table. */
  lemma SampleUnknownAddress(issuanceDate: string)
    ensures Assemble(SampleTables, "FR-75", "FR12345678", "ES-M", issuanceDate) == Rejected(ResolutionMessage)
  {
  }

  // ---------------------------------------------------------------------------
  // The form's state

  /**
   * The state of the form component: the three inputs as typed, the two
   * country previews, the error message and the last credential produced.
   */
  class Form {
    const tables: Tables
    var registrationNumber: string
    var headquartersAddress: string
    var legalAddress: string
    var headquartersCountry: Option<string>
    var legalCountry: Option<string>
    var errorMessage: string
    var jsonOutput: Option<Credential>

    constructor (tables: Tables)
      ensures this.tables == tables
      ensures registrationNumber == "" && headquartersAddress == "" && legalAddress == ""
      ensures headquartersCountry == None && legalCountry == None
      ensures errorMessage == "" && jsonOutput == None
    {
      this.tables := tables;
      registrationNumber, headquartersAddress, legalAddress := "", "", "";
      headquartersCountry, legalCountry := None, None;
      errorMessage, jsonOutput := "", None;
    }

    method OnRegistrationNumberChange(value: string)
      modifies this`registrationNumber
      ensures registrationNumber == value
    {
      registrationNumber := value;
    }

    /** Typing in the headquarters field stores it and refreshes its country preview. */
    method OnHeadquartersAddressChange(value: string)
      modifies this`headquartersAddress, this`headquartersCountry
      ensures headquartersAddress == value
      ensures headquartersCountry == Some(PreviewCountry(value))
    {
      headquartersAddress := value;
      headquartersCountry := Some(PreviewCountry(value));
    }

    /** Typing in the legal-address field stores it and refreshes its country preview. */
    method OnLegalAddressChange(value: string)
      modifies this`legalAddress, this`legalCountry
      ensures legalAddress == value
      ensures legalCountry == Some(PreviewCountry(value))
    {
      legalAddress := value;
      legalCountry := Some(PreviewCountry(value));
    }

    /**
     * One submission with the given inputs. On a rejection only the error
     * message changes, so an earlier credential stays on show; on success the
     * credential replaces the output and the error message is cleared.
     * The three inputs are the parameters, not the fields of the same names.
     */
    method HandleSubmit(headquartersAddress: string, registrationNumber: string,
                        legalAddress: string, issuanceDate: string)
      modifies this`errorMessage, this`jsonOutput
      ensures var outcome := Assemble(tables, headquartersAddress, registrationNumber, legalAddress, issuanceDate);
        && (outcome.Rejected? ==> errorMessage == outcome.message && jsonOutput == old(jsonOutput))
        && (outcome.Issued? ==> errorMessage == "" && jsonOutput == Some(outcome.credential))
    {
      var normalizedHeadquarters := Upper(headquartersAddress);
      var normalizedRegistration := Upper(registrationNumber);
      var normalizedLegal := Upper(legalAddress);

      var registrationError := VerifyRegisterNumber(normalizedRegistration);
      if registrationError.Some? {
        errorMessage := registrationError.value;
        return;
      }

      var headquartersParent := FindParentByCode(tables.subdivisions, normalizedHeadquarters);
      var legalParent := FindParentByCode(tables.subdivisions, normalizedLegal);
      var countryNameByHeadquarters := FindCountryByCode(tables, normalizedHeadquarters);
      var countryCodeByRegister := GetCountryByRegisterNumber(normalizedRegistration);
      var countryNameByAddress := FindCountryByCode(tables, normalizedLegal);

      if !IsTruthy(headquartersParent) || !IsTruthy(legalParent) {
        errorMessage := ResolutionMessage;
        return;
      }

      var jsonData := MakeCredential(
        issuanceDate,
        Upper(headquartersParent.value), countryNameByHeadquarters,
        normalizedRegistration, countryCodeByRegister,
        Upper(legalParent.value), countryNameByAddress);
      jsonOutput := Some(jsonData);
      errorMessage := "";
    }

    /** Submitting the form runs the handler on the inputs as currently typed. */
    method Submit(issuanceDate: string)
      modifies this`errorMessage, this`jsonOutput
      ensures var outcome := Assemble(tables, headquartersAddress, registrationNumber, legalAddress, issuanceDate);
        && (outcome.Rejected? ==> errorMessage == outcome.message && jsonOutput == old(jsonOutput))
        && (outcome.Issued? ==> errorMessage == "" && jsonOutput == Some(outcome.credential))
    {
      HandleSubmit(headquartersAddress, registrationNumber, legalAddress, issuanceDate);
    }
  }
}
