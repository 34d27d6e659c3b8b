/**
 * The country-code search popover: a two-letter input that, once it looks
 * like a country code, offers a link to the Wikipedia page listing that
 * country's ISO 3166-2 subdivision codes.
 */
module CountryCodeSearch {
  import opened Wrappers
  import opened Ascii

  const WikipediaPrefix := "https://en.wikipedia.org/wiki/ISO_3166-2:"

  /** The regular expression `^[a-zA-Z]+$`. */
  predicate IsLetters(s: string) {
    |s| > 0 && forall i :: 0 <= i < |s| ==> IsLetter(s[i])
  }

  /** Whether the search input is two ASCII letters (it is not checked against ISO 3166-1). */
  function IsValid2LetterCountryCode(code: string): (valid: bool)
    ensures valid <==> |code| == 2 && IsLetter(code[0]) && IsLetter(code[1])
  {
    |code| == 2 && IsLetters(code)
  }

  /** The link target for a code: the Wikipedia page of its upper-cased form. */
  function WikipediaHref(code: string): (href: string)
    ensures |href| == |WikipediaPrefix| + |code|
    ensures href[..|WikipediaPrefix|] == WikipediaPrefix
    ensures forall i :: 0 <= i < |code| ==> href[|WikipediaPrefix| + i] == UpperChar(code[i])
  {
    WikipediaPrefix + Upper(code)
  }

  /** A code is accepted or rejected together with its upper- and lower-case variants. */
  lemma ValidityIgnoresCase(code: string)
    ensures IsValid2LetterCountryCode(Upper(code)) == IsValid2LetterCountryCode(code)
    ensures IsValid2LetterCountryCode(Lower(code)) == IsValid2LetterCountryCode(code)
  {
  }

  /** The link of a valid code ends in exactly two upper-case letters, whatever case was typed. */
  lemma HrefOfValidCode(code: string)
    requires IsValid2LetterCountryCode(code)
    ensures var href := WikipediaHref(code);
      && |href| == |WikipediaPrefix| + 2
      && href[..|WikipediaPrefix|] == WikipediaPrefix
      && IsUpperLetter(href[|WikipediaPrefix|]) && IsUpperLetter(href[|WikipediaPrefix| + 1])
    ensures WikipediaHref(Lower(code)) == WikipediaHref(code)
    ensures WikipediaHref(Upper(code)) == WikipediaHref(code)
  {
    UpperOfLower(code);
    UpperIdempotent(code);
  }

  /** The popover's one piece of state: the code typed into its search input. */
  class Popover {
    var twoLetterCountryCode: string

    constructor ()
      ensures twoLetterCountryCode == ""
      ensures Link() == None
    {
      twoLetterCountryCode := "";
    }

    /** The link shown under the input: present exactly when the input is valid. */
    function Link(): (href: Option<string>)
      reads this
      ensures href.Some? <==> IsValid2LetterCountryCode(twoLetterCountryCode)
      ensures href.Some? ==> href.value == WikipediaHref(twoLetterCountryCode)
    {
      if IsValid2LetterCountryCode(twoLetterCountryCode) then Some(WikipediaHref(twoLetterCountryCode)) else None
    }

    /** Typing replaces the stored code with the input's value. */
    method OnChange(value: string)
      modifies this
      ensures twoLetterCountryCode == value
    {
      twoLetterCountryCode := value;
    }

    /** Following the link (which is only there for a valid code) clears the input, and with it the link. */
    method OnLinkClick()
      requires Link().Some?
      modifies this
      ensures twoLetterCountryCode == ""
      ensures Link() == None
    {
      twoLetterCountryCode := "";
    }
  }
}
