/**
 * The value rules of the company detail page (src/pages/CompanyDetailPage.tsx):
 * currency formatting, the portfolio statistics with their fallbacks, and
 * the text shown on the summary cards and in the overview rows.
 *
 * The GBP currency formatter (`Intl.NumberFormat`), JavaScript's `Number(s)`
 * and a number's `toString` are library calls with no model here: the page's
 * rules are stated for any functions standing in for them.
 */
module CompanyDetail {
  import opened Types

  /** The library calls the page uses, uninterpreted. `parseNumber` gives `None` where `Number(s)` is NaN. */
  datatype Formatting = Formatting(currency: real -> string, parseNumber: string -> Option<real>, show: int -> string)

  /** The argument of `formatCurrency`: `undefined` or `null`, a number, or a string. */
  datatype Amount = Missing | Num(n: real) | Text(s: string)

  const NotAvailable := "N/A"

  /** The characters `String.prototype.trim` removes: white space and line terminators. */
  predicate IsSpace(c: char) {
    || c == ' ' || c == '\t' || c == '\n' || c == '\U{000B}' || c == '\U{000C}' || c == '\r'
    || c == '\U{00A0}' || c == '\U{1680}' || ('\U{2000}' <= c <= '\U{200A}')
    || c == '\U{2028}' || c == '\U{2029}' || c == '\U{202F}' || c == '\U{205F}' || c == '\U{3000}' || c == '\U{FEFF}'
  }

  function TrimStart(s: string): (r: string)
    ensures |r| <= |s| && r == s[|s| - |r|..]
    ensures r == [] || !IsSpace(r[0])
    ensures forall i :: 0 <= i < |s| - |r| ==> IsSpace(s[i])
  {
    if s != [] && IsSpace(s[0]) then TrimStart(s[1..]) else s
  }

  function TrimEnd(s: string): (r: string)
    ensures |r| <= |s| && r == s[..|r|]
    ensures r == [] || !IsSpace(r[|r| - 1])
    ensures forall i :: |r| <= i < |s| ==> IsSpace(s[i])
  {
    if s != [] && IsSpace(s[|s| - 1]) then TrimEnd(s[..|s| - 1]) else s
  }

  /** How many white-space characters `s` starts with. */
  function LeadingSpace(s: string): (n: nat)
    ensures n <= |s|
    ensures forall i :: 0 <= i < n ==> IsSpace(s[i])
    ensures n == |s| || !IsSpace(s[n])
  {
    if s != [] && IsSpace(s[0]) then 1 + LeadingSpace(s[1..]) else 0
  }

  /**
   * `s.trim()`: the infix of `s` left after dropping its leading white space
   * (`LeadingSpace(s)` characters) and its trailing white space.
   */
  function Trim(s: string): (r: string)
    ensures LeadingSpace(s) + |r| <= |s| && r == s[LeadingSpace(s)..LeadingSpace(s) + |r|]
    ensures forall i :: LeadingSpace(s) + |r| <= i < |s| ==> IsSpace(s[i])
    ensures r == [] || (!IsSpace(r[0]) && !IsSpace(r[|r| - 1]))
    ensures (forall i :: 0 <= i < |s| ==> IsSpace(s[i])) <==> r == []
  {
    var t := TrimStart(s);
    TrimStartSkips(s);
    TrimEnd(t)
  }

  /** `TrimStart` drops exactly the leading white space. */
  lemma {:induction false} TrimStartSkips(s: string)
    ensures TrimStart(s) == s[LeadingSpace(s)..]
  {
    if s != [] && IsSpace(s[0]) {
      TrimStartSkips(s[1..]);
    }
  }

  /** Trimming twice is trimming once. */
  lemma TrimIdempotent(s: string)
    ensures Trim(Trim(s)) == Trim(s)
  {
    var t := Trim(s);
    assert TrimStart(t) == t;
    assert TrimEnd(t) == t;
  }

  /** `/^[£$€]/`: a pound, dollar or euro sign. */
  predicate IsCurrencySymbol(c: char) {
    c == '\U{00A3}' || c == '$' || c == '\U{20AC}'
  }

  /** A string that already reads as a price. */
  predicate HasCurrencyPrefix(s: string) {
    s != [] && IsCurrencySymbol(s[0])
  }

  /**
   * `formatCurrency`: nothing (or `""`) formats as 0; a number is formatted;
   * a string is trimmed, kept as written when it starts with a currency
   * sign, formatted when it parses as a number, and otherwise kept.
   */
  function FormatCurrency(f: Formatting, value: Amount): (r: string)
    ensures value == Missing || value == Text("") ==> r == f.currency(0.0)
    ensures value.Num? ==> r == f.currency(value.n)
    ensures value.Text? && value.s != "" && HasCurrencyPrefix(Trim(value.s)) ==> r == Trim(value.s)
    ensures value.Text? && value.s != "" && !HasCurrencyPrefix(Trim(value.s)) ==>
      r == (if f.parseNumber(Trim(value.s)).Some? then f.currency(f.parseNumber(Trim(value.s)).value) else Trim(value.s))
  {
    match value
    case Missing => f.currency(0.0)
    case Num(n) => f.currency(n)
    case Text(s) =>
      if s == "" then f.currency(0.0)
      else
        var trimmed := Trim(s);
        if HasCurrencyPrefix(trimmed) then trimmed
        else if f.parseNumber(trimmed).Some? then f.currency(f.parseNumber(trimmed).value)
        else trimmed
  }

  /** A price string comes back trimmed, and formatting that result again changes nothing. */
  lemma PricedTextIsStable(f: Formatting, s: string)
    requires HasCurrencyPrefix(Trim(s))
    ensures FormatCurrency(f, Text(s)) == Trim(s)
    ensures FormatCurrency(f, Text(FormatCurrency(f, Text(s)))) == FormatCurrency(f, Text(s))
  {
    TrimIdempotent(s);
  }

  /** Text that is neither a price nor a number is shown trimmed, unformatted. */
  lemma OtherTextIsKept(f: Formatting, s: string)
    requires s != "" && !HasCurrencyPrefix(Trim(s)) && f.parseNumber(Trim(s)).None?
    ensures FormatCurrency(f, Text(s)) == Trim(s)
  {
  }

  datatype Stats = Stats(totalProperties: Option<int>, activeProperties: Option<int>, portfolioValue: Option<real>)

  /**
   * `portfolioStats`: all null without a company; the property total is the
   * explicit field (0 included), else the length of a non-empty property
   * list, else null; the other two default to null.
   */
  function PortfolioStats(company: Option<Company>): (st: Stats)
    ensures company.None? ==> st == Stats(None, None, None)
    ensures company.Some? ==>
      st.activeProperties == company.value.activeProperties && st.portfolioValue == company.value.portfolioValue
    ensures company.Some? && company.value.totalProperties.Some? ==> st.totalProperties == company.value.totalProperties
    ensures company.Some? && company.value.totalProperties.None? ==>
      (st.totalProperties.Some? <==> company.value.properties.Some? && |company.value.properties.value| > 0)
    ensures company.Some? && company.value.totalProperties.None? && st.totalProperties.Some? ==>
      st.totalProperties.value == |company.value.properties.value|
  {
    match company
    case None => Stats(None, None, None)
    case Some(c) =>
      var total :=
        if c.totalProperties.Some? then c.totalProperties
        else if c.properties.Some? && |c.properties.value| > 0 then Some(|c.properties.value|)
        else None;
      Stats(total, c.activeProperties, c.portfolioValue)
  }

  /** A count as shown on a card or row: its text when known, else "N/A". */
  function CountText(f: Formatting, n: Option<int>): (r: string)
    ensures n.None? ==> r == NotAvailable
    ensures n.Some? ==> r == f.show(n.value)
  {
    if n.Some? then f.show(n.value) else NotAvailable
  }

  /** The Total Value card tests truthiness: a value of 0 shows "N/A". */
  function TotalValueCard(f: Formatting, value: Option<real>): (r: string)
    ensures value.None? || value.value == 0.0 ==> r == NotAvailable
    ensures value.Some? && value.value != 0.0 ==> r == f.currency(value.value)
  {
    if value.Some? && value.value != 0.0 then FormatCurrency(f, Num(value.value)) else NotAvailable
  }

  /** The Portfolio Value row tests for null: a value of 0 is formatted. */
  function PortfolioValueRow(f: Formatting, value: Option<real>): (r: string)
    ensures value.None? ==> r == NotAvailable
    ensures value.Some? ==> r == f.currency(value.value)
  {
    if value.Some? then FormatCurrency(f, Num(value.value)) else NotAvailable
  }

  /** A zero portfolio value reads "N/A" on the card but as a formatted 0 in the overview. */
  lemma ZeroPortfolioValue(f: Formatting)
    ensures TotalValueCard(f, Some(0.0)) == NotAvailable
    ensures PortfolioValueRow(f, Some(0.0)) == f.currency(0.0)
  {
  }

  /** Card and row agree on every non-zero value, and on a missing one. */
  lemma CardAndRowAgree(f: Formatting, value: Option<real>)
    requires value.None? || value.value != 0.0
    ensures TotalValueCard(f, value) == PortfolioValueRow(f, value)
  {
  }

  /** `a || b` on a field that may be null or empty. */
  function OrElse(a: Option<string>, b: string): (r: string)
    ensures Truthy(a) ==> r == a.value
    ensures !Truthy(a) ==> r == b
  {
    if Truthy(a) then a.value else b
  }

  /** What an overview row displays: `value || 'N/A'`. */
  function Displayed(value: string): (r: string)
    ensures r != ""
    ensures value != "" ==> r == value
    ensures value == "" ==> r == NotAvailable
  {
    if value == "" then NotAvailable else value
  }

  /** The six overview rows, label and displayed value, in order. */
  function OverviewRows(f: Formatting, c: Company): (rows: seq<(string, string)>)
    ensures |rows| == 6
    ensures forall i :: 0 <= i < |rows| ==> rows[i].1 != ""
    ensures rows[0] == ("Company Type", Displayed(OrElse(c.companyType, OrElse(c.natureOfBusiness, NotAvailable))))
    ensures rows[1] == ("Status", OrElse(c.status, "Active"))
    ensures rows[2] == ("Company Number", Displayed(OrElse(c.companyNumber, "")))
    ensures rows[3] == ("SIC Code", Displayed(OrElse(c.sicCode, "")))
    ensures rows[4] == ("Portfolio Value", Displayed(PortfolioValueRow(f, PortfolioStats(Some(c)).portfolioValue)))
    ensures rows[5] == ("Total Properties", Displayed(CountText(f, PortfolioStats(Some(c)).totalProperties)))
  {
    var st := PortfolioStats(Some(c));
    [ ("Company Type", Displayed(OrElse(c.companyType, OrElse(c.natureOfBusiness, NotAvailable)))),
      ("Status", Displayed(OrElse(c.status, "Active"))),
      ("Company Number", Displayed(OrElse(c.companyNumber, ""))),
      ("SIC Code", Displayed(OrElse(c.sicCode, ""))),
      ("Portfolio Value", Displayed(PortfolioValueRow(f, st.portfolioValue))),
      ("Total Properties", Displayed(CountText(f, st.totalProperties))) ]
  }

  /** The company-type row falls back to the nature of business, then to "N/A"; status defaults to "Active". */
  lemma OverviewFallbacks(f: Formatting, c: Company)
    ensures !Truthy(c.companyType) && Truthy(c.natureOfBusiness) ==> OverviewRows(f, c)[0].1 == c.natureOfBusiness.value
    ensures !Truthy(c.companyType) && !Truthy(c.natureOfBusiness) ==> OverviewRows(f, c)[0].1 == NotAvailable
    ensures !Truthy(c.status) ==> OverviewRows(f, c)[1].1 == "Active"
    ensures !Truthy(c.companyNumber) ==> OverviewRows(f, c)[2].1 == NotAvailable
  {
  }

  /** An explicit total of 0 wins over a non-empty property list. */
  lemma ExplicitZeroTotalWins(c: Company)
    requires c.totalProperties == Some(0) && c.properties.Some? && |c.properties.value| > 0
    ensures PortfolioStats(Some(c)).totalProperties == Some(0)
  {
  }
}
