/** The result-count message policy of the search page: one flash message per
    search, the "no results" text when the count is zero and the singular or
    plural "N results" text otherwise, each replaced by a per-view override
    when one is set. Texts are the untranslated message ids. */
module SearchMessages {
  import opened Records

  const NoResultsDefault: string :=
    "Aucune annonce ne correspond à votre recherche. " +
    "Elargissez votre zone de recherche ou modifiez les critères."
  /** The singular and plural message ids: `%s` (the count) and a tail. */
  const SingularTail: string := " annonce correspondant à votre recherche. "
  const PluralTail: string := " annonces correspondant à votre recherche. "
  const ResultsSingular: string := "%s" + SingularTail
  const ResultsPlural: string := "%s" + PluralTail

  predicate IsDigit(c: char) {
    '0' <= c <= '9'
  }

  predicate AllDigits(s: string) {
    forall i :: 0 <= i < |s| ==> IsDigit(s[i])
  }

  function Digit(d: nat): (c: char)
    requires d < 10
    ensures IsDigit(c)
  {
    ('0' as int + d) as char
  }

  function DigitValue(c: char): (d: nat)
    requires IsDigit(c)
    ensures d < 10
  {
    c as int - '0' as int
  }

  /** `str(n)`: the decimal digits of n, most significant first. */
  function Decimal(n: nat): (s: string)
    ensures |s| >= 1 && AllDigits(s)
    ensures s[0] == '0' ==> n == 0
  {
    if n < 10 then [Digit(n)] else Decimal(n / 10) + [Digit(n % 10)]
  }

  /** The number a string of decimal digits denotes. */
  function ParseDecimal(s: string): nat
    requires AllDigits(s)
  {
    if s == [] then 0 else ParseDecimal(s[..|s| - 1]) * 10 + DigitValue(s[|s| - 1])
  }

  lemma {:induction false} DecimalRoundTrip(n: nat)
    ensures ParseDecimal(Decimal(n)) == n
  {
    var s := Decimal(n);
    if n < 10 {
      assert s[..|s| - 1] == [];
    } else {
      assert s[..|s| - 1] == Decimal(n / 10);
      DecimalRoundTrip(n / 10);
    }
  }

  /** The longest prefix of s made of decimal digits. */
  function LeadingDigits(s: string): (d: string)
    ensures AllDigits(d) && |d| <= |s| && d == s[..|d|]
  {
    if s != [] && IsDigit(s[0]) then [s[0]] + LeadingDigits(s[1..]) else []
  }

  lemma {:induction false} LeadingDigitsOfNumber(d: string, rest: string)
    requires AllDigits(d)
    requires rest == [] || !IsDigit(rest[0])
    ensures LeadingDigits(d + rest) == d
  {
    if d != [] {
      assert (d + rest)[1..] == d[1..] + rest;
      LeadingDigitsOfNumber(d[1..], rest);
    } else {
      assert d + rest == rest;
    }
  }

  /** The count a message starts with, read back from its leading digits. */
  function CountIn(msg: string): nat {
    ParseDecimal(LeadingDigits(msg))
  }

  /** `ungettext(singular, plural, n)` with no catalogue: the singular form
      exactly when n is 1. (French catalogues pick the singular for 0 and 1;
      both rules agree on the counts of at least one used here.) */
  function Ngettext(singular: string, plural: string, n: nat): (r: string)
    ensures r == singular || r == plural
    ensures n == 1 ==> r == singular
    ensures n >= 2 ==> r == plural
  {
    if n == 1 then singular else plural
  }

  /** A format string's literal text: characters other than `%`, and `%%`
      pairs, which stand for one `%`. */
  predicate Literal(t: string) {
    if t == [] then true
    else if t[0] != '%' then Literal(t[1..])
    else |t| >= 2 && t[1] == '%' && Literal(t[2..])
  }

  /** The text a literal stands for: each `%%` read as one `%`. */
  function Unescape(t: string): string {
    if t == [] then []
    else if |t| >= 2 && t[0] == '%' && t[1] == '%' then "%" + Unescape(t[2..])
    else [t[0]] + Unescape(t[1..])
  }

  /** The literal that stands for s: each `%` doubled. */
  function Escape(s: string): string {
    if s == [] then [] else (if s[0] == '%' then "%%" else [s[0]]) + Escape(s[1..])
  }

  /** Escaping yields a literal that stands for exactly the escaped text. */
  lemma {:induction false} EscapeRoundTrip(s: string)
    ensures Literal(Escape(s)) && Unescape(Escape(s)) == s
  {
    if s != [] {
      EscapeRoundTrip(s[1..]);
      var head := if s[0] == '%' then "%%" else [s[0]];
      assert Escape(s) == head + Escape(s[1..]);
      assert Escape(s)[|head|..] == Escape(s[1..]);
    }
  }

  /** A literal without `%` stands for itself. */
  lemma {:induction false} UnescapePlain(t: string)
    requires '%' !in t
    ensures Literal(t) && Unescape(t) == t
  {
    if t != [] {
      assert t[0] in t;
      assert forall c :: c in t[1..] ==> c in t;
      UnescapePlain(t[1..]);
    }
  }

  /** Python's `template % (arg,)` for a template with one conversion `%s`
      and the escape `%%` elsewhere. */
  function Interpolate(template: string, arg: string): string {
    if template == [] then []
    else if |template| >= 2 && template[0] == '%' && template[1] == 's' then arg + Unescape(template[2..])
    else if |template| >= 2 && template[0] == '%' && template[1] == '%' then "%" + Interpolate(template[2..], arg)
    else [template[0]] + Interpolate(template[1..], arg)
  }

  /** Formatting a template `p %s t`, with p literal text: the argument
      takes the place of `%s` and each `%%` on either side becomes `%`. */
  lemma {:induction false} InterpolateFillsSlot(p: string, t: string, arg: string)
    requires Literal(p)
    ensures Interpolate(p + "%s" + t, arg) == Unescape(p) + arg + Unescape(t)
  {
    var template := p + "%s" + t;
    if p == [] {
      assert template == "%s" + t && template[2..] == t;
    } else if p[0] != '%' {
      assert template[1..] == p[1..] + "%s" + t;
      InterpolateFillsSlot(p[1..], t, arg);
    } else {
      assert template[2..] == p[2..] + "%s" + t;
      InterpolateFillsSlot(p[2..], t, arg);
    }
  }

  /** `get_no_results_msg`: the override when it is not None, else the default. */
  function NoResultsMsg(noResultsMsg: Option<string>): (m: string)
    ensures noResultsMsg.Some? ==> m == noResultsMsg.value
    ensures noResultsMsg.None? ==> m == NoResultsDefault
  {
    match noResultsMsg
    case Some(s) => s
    case None => NoResultsDefault
  }

  /** The tails of the results message ids contain no `%`. */
  lemma TailsArePlain()
    ensures Literal(SingularTail) && Unescape(SingularTail) == SingularTail
    ensures Literal(PluralTail) && Unescape(PluralTail) == PluralTail
  {
    assert '%' !in SingularTail;
    UnescapePlain(SingularTail);
    assert '%' !in PluralTail;
    UnescapePlain(PluralTail);
  }

  /** The default wording: the count in decimal, then the tail `ungettext` picks. */
  lemma DefaultResultsMsg(count: nat)
    ensures Interpolate(Ngettext(ResultsSingular, ResultsPlural, count), Decimal(count))
            == Decimal(count) + (if count == 1 then SingularTail else PluralTail)
  {
    TailsArePlain();
    var tail := if count == 1 then SingularTail else PluralTail;
    var d := Decimal(count);
    assert Ngettext(ResultsSingular, ResultsPlural, count) == [] + "%s" + tail;
    InterpolateFillsSlot([], tail, d);
  }

  /** `get_results_msg`: the override when it is not None; otherwise the count
      in decimal followed by the singular wording for 1 and the plural
      wording for more. */
  function ResultsMsg(resultsMsg: Option<string>, count: nat): (m: string)
    ensures resultsMsg.Some? ==> m == resultsMsg.value
    ensures resultsMsg.None? && count == 1 ==> m == "1" + SingularTail
    ensures resultsMsg.None? && count >= 2 ==> m == Decimal(count) + PluralTail
  {
    match resultsMsg
    case Some(s) => s
    case None =>
      DefaultResultsMsg(count);
      Interpolate(Ngettext(ResultsSingular, ResultsPlural, count), Decimal(count))
  }

  /** `get_msg`: the single message a search adds, chosen by whether the
      result count is zero. */
  function GetMsg(noResultsMsg: Option<string>, resultsMsg: Option<string>, count: nat): (m: Message)
    ensures count == 0 ==> m == Info(NoResultsMsg(noResultsMsg))
    ensures count > 0 ==> m == Info(ResultsMsg(resultsMsg, count))
  {
    if count == 0 then Info(NoResultsMsg(noResultsMsg))
    else Info(ResultsMsg(resultsMsg, count))
  }

  /** With the default wording the results message carries its count: the
      number at its head reads back as exactly the count substituted. */
  lemma ResultsMsgCarriesCount(count: nat)
    requires count >= 1
    ensures CountIn(ResultsMsg(None, count)) == count
  {
    var tail := if count == 1 then SingularTail else PluralTail;
    assert ResultsMsg(None, count) == Decimal(count) + tail;
    LeadingDigitsOfNumber(Decimal(count), tail);
    DecimalRoundTrip(count);
  }

  /** Hence distinct counts give distinct default messages. */
  lemma ResultsMsgDistinguishesCounts(n: nat, k: nat)
    requires n >= 1 && k >= 1 && n != k
    ensures ResultsMsg(None, n) != ResultsMsg(None, k)
  {
    ResultsMsgCarriesCount(n);
    ResultsMsgCarriesCount(k);
  }
}
