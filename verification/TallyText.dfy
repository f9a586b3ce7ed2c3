/**
 How a voucher leg becomes text and comes back: the amount printer and parser of the agent, in 64-bit
 arithmetic with wrap-around, and the escaping of names in XML.
 */
module TallyText {
  import opened Options
  import opened Canonical

  const MIN_I64 := -0x8000_0000_0000_0000
  const MAX_I64 := 0x7fff_ffff_ffff_ffff

  predicate IsI64(n: int) { MIN_I64 <= n <= MAX_I64 }

  function Wrap64(n: int): int {
    (n + 0x8000_0000_0000_0000) % 0x1_0000_0000_0000_0000 - 0x8000_0000_0000_0000
  }

  /** i64::abs in a release build: the minimum is its own absolute value. */
  function Abs64(n: int): int { Wrap64(if n < 0 then -n else n) }

  /** Division and remainder that truncate toward zero. */
  function TruncDiv(a: int, b: int): int
    requires b > 0
  {
    if a >= 0 then a / b else -((-a) / b)
  }

  function TruncMod(a: int, b: int): int
    requires b > 0
  {
    a - TruncDiv(a, b) * b
  }

  // ---- digits ---------------------------------------------------------------------------------------------------

  predicate IsDigit(c: char) { '0' <= c <= '9' }

  predicate AllDigits(s: string) { forall i :: 0 <= i < |s| ==> IsDigit(s[i]) }

  function DigitChar(d: nat): (c: char)
    requires d < 10
    ensures IsDigit(c) && c as int - '0' as int == d
  {
    '0' + d as char
  }

  function Digits(n: nat): (s: string)
    ensures |s| > 0 && AllDigits(s)
  {
    if n < 10 then [DigitChar(n)] else Digits(n / 10) + [DigitChar(n % 10)]
  }

  function FromDigits(s: string): (n: nat)
    requires AllDigits(s)
  {
    if s == [] then 0 else FromDigits(s[..|s| - 1]) * 10 + (s[|s| - 1] as int - '0' as int)
  }

  function FormatInt(n: int): string {
    if n < 0 then "-" + Digits(-n) else Digits(n)
  }

  /** {:02} */
  function Pad2(n: int): string {
    if 0 <= n < 10 then "0" + Digits(n) else FormatInt(n)
  }

  /** str::parse::<i64>: an optional sign, digits, no overflow. */
  function ParseI64(s: string): Option<int> {
    var negative := |s| > 0 && s[0] == '-';
    var body := if |s| > 0 && (s[0] == '-' || s[0] == '+') then s[1..] else s;
    if body == [] || !AllDigits(body) then None
    else
      var n: int := if negative then 0 - FromDigits(body) else FromDigits(body);
      if IsI64(n) then Some(n) else None
  }

  lemma {:induction false} DigitsRoundTrip(n: nat)
    ensures FromDigits(Digits(n)) == n
  {
    if n >= 10 {
      DigitsRoundTrip(n / 10);
      assert Digits(n)[..|Digits(n)| - 1] == Digits(n / 10);
    } else {
      assert Digits(n)[..0] == [];
    }
  }

  lemma ParseOfDigits(n: nat)
    requires IsI64(n)
    ensures ParseI64(Digits(n)) == Some(n)
  {
    DigitsRoundTrip(n);
    assert IsDigit(Digits(n)[0]);
  }

  // ---- printing an amount ------------------------------------------------------------------------------------------

  function Print(p: int): string {
    (if p < 0 then "-" else "") + FormatInt(TruncDiv(Abs64(p), 100)) + "." + Pad2(TruncMod(Abs64(p), 100))
  }

  // ---- parsing an amount ---------------------------------------------------------------------------------------------

  predicate IsSpace(c: char) { c == ' ' || c == '\t' || c == '\n' || c == '\r' }

  function TrimStart(s: string): string {
    if s != [] && IsSpace(s[0]) then TrimStart(s[1..]) else s
  }

  function TrimEnd(s: string): string {
    if s != [] && IsSpace(s[|s| - 1]) then TrimEnd(s[..|s| - 1]) else s
  }

  function Trim(s: string): string { TrimEnd(TrimStart(s)) }

  function Without(s: string, c: char): string {
    if s == [] then [] else (if s[0] == c then [] else [s[0]]) + Without(s[1..], c)
  }

  predicate EndsWith(s: string, suffix: string) {
    |suffix| <= |s| && s[|s| - |suffix|..] == suffix
  }

  function TrimEndMatches(s: string, suffix: string): string
    requires |suffix| > 0
  {
    if EndsWith(s, suffix) then TrimEndMatches(s[..|s| - |suffix|], suffix) else s
  }

  function TrimDashes(s: string): string {
    if s != [] && s[0] == '-' then TrimDashes(s[1..]) else s
  }

  /** The text before the first dot. */
  function BeforeDot(s: string): string {
    if s == [] || s[0] == '.' then [] else [s[0]] + BeforeDot(s[1..])
  }

  /** The text between the first and the second dot, if there is a dot. */
  function AfterDot(s: string): Option<string> {
    if s == [] then None else if s[0] == '.' then Some(BeforeDot(s[1..])) else AfterDot(s[1..])
  }

  function OrZero(n: Option<int>): int { if n.Some? then n.value else 0 }

  function Fraction(raw: string): int {
    if |raw| == 0 then 0 else if |raw| == 1 then OrZero(ParseI64(raw)) * 10 else OrZero(ParseI64(raw[..2]))
  }

  /** The text as the parser takes it apart. */
  datatype Parts = Parts(negative: bool, debit: bool, whole: int, fraction: int)

  function Split(value: string): Parts {
    var clean := Trim(Without(value, ','));
    var number := Trim(TrimEndMatches(TrimEndMatches(clean, "Dr"), "Cr"));
    var absolute := TrimDashes(number);
    var fraction := AfterDot(absolute);
    Parts((|number| > 0 && number[0] == '-') || EndsWith(clean, "Cr"), EndsWith(clean, "Dr"),
          OrZero(ParseI64(BeforeDot(absolute))), Fraction(if fraction.Some? then fraction.value else "0"))
  }

  function Amount(p: Parts): int {
    var amount := Wrap64(Wrap64(p.whole * 100) + p.fraction);
    if p.negative && !p.debit then Wrap64(-amount) else amount
  }

  function Paise(value: string): int {
    Amount(Split(value))
  }

  // ---- there and back -----------------------------------------------------------------------------------------------------

  predicate Plain(s: string) {
    forall i :: 0 <= i < |s| ==> IsDigit(s[i]) || s[i] == '.' || s[i] == '-'
  }

  lemma {:induction false} PlainHasNoCommas(s: string)
    requires Plain(s)
    ensures Without(s, ',') == s
  {
    if s != [] {
      assert Plain(s[1..]);
      PlainHasNoCommas(s[1..]);
    }
  }

  lemma PlainIsTrimmed(s: string)
    requires Plain(s)
    ensures Trim(s) == s && !EndsWith(s, "Dr") && !EndsWith(s, "Cr")
    ensures TrimEndMatches(TrimEndMatches(s, "Dr"), "Cr") == s
  {
  }

  lemma {:induction false} DotAfterDigits(digits: string, rest: string)
    requires AllDigits(digits)
    ensures BeforeDot(digits + "." + rest) == digits && AfterDot(digits + "." + rest) == Some(BeforeDot(rest))
  {
    var s := digits + "." + rest;
    if digits != [] {
      assert s[1..] == digits[1..] + "." + rest;
      DotAfterDigits(digits[1..], rest);
    } else {
      assert s[1..] == rest;
    }
  }

  lemma {:induction false} NoDotInDigits(s: string)
    requires AllDigits(s)
    ensures BeforeDot(s) == s
  {
    if s != [] {
      NoDotInDigits(s[1..]);
    }
  }

  lemma Pad2RoundTrip(n: nat)
    requires n < 100
    ensures |Pad2(n)| == 2 && AllDigits(Pad2(n)) && ParseI64(Pad2(n)) == Some(n)
  {
    var s := Pad2(n);
    DigitsRoundTrip(n);
    if n < 10 {
      assert s == ['0', DigitChar(n)];
    } else {
      assert Digits(n / 10) == [DigitChar(n / 10)];
      assert s == [DigitChar(n / 10), DigitChar(n % 10)];
    }
    assert s[..1] == [s[0]] && s[..1][..0] == [];
    assert FromDigits(s[..1]) == s[0] as int - '0' as int;
    assert FromDigits(s) == n;
  }

  /** The unsigned part of a printed amount. */
  lemma ParseUnsigned(n: nat)
    requires n <= MAX_I64
    ensures var s := Unsigned(n);
      && TrimDashes(s) == s && Plain(s) && s[0] != '-'
      && AfterDot(s).Some?
      && OrZero(ParseI64(BeforeDot(s))) == n / 100 && Fraction(AfterDot(s).value) == n % 100
  {
    var whole, cents := Digits(n / 100), Pad2(n % 100);
    ParseOfDigits(n / 100);
    Pad2RoundTrip(n % 100);
    DotAfterDigits(whole, cents);
    NoDotInDigits(cents);
    assert cents[..2] == cents;
    assert IsDigit((whole + "." + cents)[0]);
  }

  lemma AbsOf(p: int)
    requires IsI64(p)
    ensures Abs64(p) == if p == MIN_I64 then MIN_I64 else if p < 0 then -p else p
  {
  }

  function Unsigned(n: nat): string {
    Digits(n / 100) + "." + Pad2(n % 100)
  }

  lemma PrintForm(p: int)
    requires MIN_I64 < p <= MAX_I64
    ensures Print(p) == if p < 0 then "-" + Unsigned(-p) else Unsigned(p)
  {
    AbsOf(p);
  }

  /** What the parser makes of a text without commas, blanks and Dr or Cr. */
  lemma SplitPlain(value: string, absolute: string)
    requires Plain(value) && absolute == TrimDashes(value) && AfterDot(absolute).Some?
    ensures Split(value) == Parts(|value| > 0 && value[0] == '-', false,
                                  OrZero(ParseI64(BeforeDot(absolute))), Fraction(AfterDot(absolute).value))
  {
    PlainHasNoCommas(value);
    PlainIsTrimmed(value);
  }

  lemma AmountOf(negative: bool, whole: int, fraction: int)
    requires IsI64(whole * 100) && IsI64(whole * 100 + fraction) && whole * 100 + fraction > MIN_I64
    ensures Amount(Parts(negative, false, whole, fraction))
            == if negative then -(whole * 100 + fraction) else whole * 100 + fraction
  {
  }

  /** Printing an amount and parsing it back changes nothing, for every amount but the least one. */
  lemma PrintParseRoundTrip(p: int)
    requires MIN_I64 < p <= MAX_I64
    ensures Paise(Print(p)) == p
  {
    var n := if p < 0 then -p else p;
    PrintForm(p);
    ParseUnsigned(n);
    assert ("-" + Unsigned(n))[1..] == Unsigned(n);
    SplitPlain(Print(p), Unsigned(n));
    AmountOf(p < 0, n / 100, n % 100);
  }

  lemma MinusEight()
    ensures Fraction("-8") == -8 && BeforeDot("-8") == "-8" && Plain("-8")
  {
    assert "-8"[1..] == "8" && "8"[1..] == [] && "-8"[..2] == "-8";
    assert "8"[..0] == [] && FromDigits("8") == 8;
  }

  lemma TwoDashes(s: string)
    requires s != [] && s[0] != '-' && Plain(s)
    ensures TrimDashes("--" + s) == s && Plain("--" + s)
  {
    var t := "-" + s;
    assert t[1..] == s && TrimDashes(t) == TrimDashes(s) == s;
    assert ("--" + s)[1..] == t;
  }

  /** A fraction that is printed with a sign of its own. */
  lemma SignedFraction(w: nat)
    requires 100 <= w * 100 <= MAX_I64
    ensures Paise("--" + (Digits(w) + "." + "-8")) == -(w * 100 - 8)
  {
    var s := Digits(w) + "." + "-8";
    MinusEight();
    assert IsDigit(s[0]) && Plain(s);
    TwoDashes(s);
    DotAfterDigits(Digits(w), "-8");
    ParseOfDigits(w);
    SplitPlain("--" + s, s);
    AmountOf(true, w, -8);
  }

  lemma LeastParts()
    ensures TruncDiv(Abs64(MIN_I64), 100) == -92233720368547758 && TruncMod(Abs64(MIN_I64), 100) == -8
  {
  }

  lemma PrintLeast(p: int, w: nat)
    requires p < 0 && w > 0 && TruncDiv(Abs64(p), 100) == 0 - w && TruncMod(Abs64(p), 100) == -8
    ensures Print(p) == "--" + (Digits(w) + "." + "-8")
  {
  }

  /** The absolute value of the least amount wraps around to itself, and both parts are printed with a sign. */
  lemma LeastAmountIsMisprinted()
    ensures Paise(Print(MIN_I64)) == MIN_I64 + 16
  {
    var w := 92233720368547758;
    LeastParts();
    PrintLeast(MIN_I64, w);
    SignedFraction(w);
  }

  // ---- XML names ---------------------------------------------------------------------------------------------------------------

  /** str::replace with a one-character pattern. */
  function Replace(s: string, c: char, by_: string): string {
    if s == [] then [] else (if s[0] == c then by_ else [s[0]]) + Replace(s[1..], c, by_)
  }

  function Amp(s: string): string { Replace(s, '&', "&amp;") }
  function Lt(s: string): string { Replace(s, '<', "&lt;") }
  function Gt(s: string): string { Replace(s, '>', "&gt;") }
  function Quot(s: string): string { Replace(s, '"', "&quot;") }
  function Apos(s: string): string { Replace(s, '\'', "&apos;") }

  function Escape(s: string): string {
    Apos(Quot(Gt(Lt(Amp(s)))))
  }

  function EscapeChar(c: char): string {
    if c == '&' then "&amp;" else if c == '<' then "&lt;" else if c == '>' then "&gt;"
    else if c == '"' then "&quot;" else if c == '\'' then "&apos;" else [c]
  }

  function EscapeEach(s: string): string {
    if s == [] then [] else EscapeChar(s[0]) + EscapeEach(s[1..])
  }

  /** The predefined entities of section 4.6 of XML 1.0; anything else stands for itself. */
  function Decode(s: string): string
    decreases |s|
  {
    if s == [] then []
    else if "&amp;" <= s then ['&'] + Decode(s[5..])
    else if "&lt;" <= s then ['<'] + Decode(s[4..])
    else if "&gt;" <= s then ['>'] + Decode(s[4..])
    else if "&quot;" <= s then ['"'] + Decode(s[6..])
    else if "&apos;" <= s then ['\''] + Decode(s[6..])
    else [s[0]] + Decode(s[1..])
  }

  lemma {:induction false} ReplaceConcat(a: string, b: string, c: char, by_: string)
    ensures Replace(a + b, c, by_) == Replace(a, c, by_) + Replace(b, c, by_)
  {
    if a == [] {
      assert a + b == b;
    } else {
      assert (a + b)[1..] == a[1..] + b;
      ReplaceConcat(a[1..], b, c, by_);
    }
  }

  lemma {:induction false} ReplaceAbsent(s: string, c: char, by_: string)
    requires c !in s
    ensures Replace(s, c, by_) == s
  {
    if s != [] {
      ReplaceAbsent(s[1..], c, by_);
    }
  }

  lemma EscapeConcat(a: string, b: string)
    ensures Escape(a + b) == Escape(a) + Escape(b)
  {
    ReplaceConcat(a, b, '&', "&amp;");
    ReplaceConcat(Amp(a), Amp(b), '<', "&lt;");
    ReplaceConcat(Lt(Amp(a)), Lt(Amp(b)), '>', "&gt;");
    ReplaceConcat(Gt(Lt(Amp(a))), Gt(Lt(Amp(b))), '"', "&quot;");
    ReplaceConcat(Quot(Gt(Lt(Amp(a)))), Quot(Gt(Lt(Amp(b)))), '\'', "&apos;");
  }

  lemma ReplaceSingle(c: char, d: char, by_: string)
    ensures Replace([c], d, by_) == if c == d then by_ else [c]
  {
  }

  lemma LaterPassesSkip(s: string)
    ensures '<' !in s ==> Lt(s) == s
    ensures '>' !in s ==> Gt(s) == s
    ensures '"' !in s ==> Quot(s) == s
    ensures '\'' !in s ==> Apos(s) == s
  {
    if '<' !in s { ReplaceAbsent(s, '<', "&lt;"); }
    if '>' !in s { ReplaceAbsent(s, '>', "&gt;"); }
    if '"' !in s { ReplaceAbsent(s, '"', "&quot;"); }
    if '\'' !in s { ReplaceAbsent(s, '\'', "&apos;"); }
  }

  predicate Unquoted(s: string) {
    '<' !in s && '>' !in s && '"' !in s && '\'' !in s
  }

  lemma EntitiesAreUnquoted(c: char)
    ensures |EscapeChar(c)| > 1 ==> Unquoted(EscapeChar(c))
  {
  }

  lemma EscapeEarly(c: char, e: string)
    requires (c == '&' || c == '<' || c == '>') && e == EscapeChar(c)
    ensures Escape([c]) == e
  {
    EntitiesAreUnquoted(c);
    LaterPassesSkip(e);
    ReplaceSingle(c, '&', "&amp;");
    ReplaceSingle(c, '<', "&lt;");
    ReplaceSingle(c, '>', "&gt;");
  }

  lemma EscapeOther(c: char)
    requires c != '&' && c != '<' && c != '>'
    ensures Escape([c]) == EscapeChar(c)
  {
    ReplaceSingle(c, '&', "&amp;");
    ReplaceSingle(c, '<', "&lt;");
    ReplaceSingle(c, '>', "&gt;");
    ReplaceSingle(c, '"', "&quot;");
    ReplaceSingle(c, '\'', "&apos;");
    LaterPassesSkip("&quot;");
  }

  /** Later passes find nothing to replace in what earlier passes put in. */
  lemma EscapeSingle(c: char)
    ensures Escape([c]) == EscapeChar(c)
  {
    if c == '&' || c == '<' || c == '>' {
      EscapeEarly(c, EscapeChar(c));
    } else {
      EscapeOther(c);
    }
  }

  /** The five passes escape each character once. */
  lemma {:induction false} EscapeIsPerCharacter(s: string)
    ensures Escape(s) == EscapeEach(s)
  {
    if s != [] {
      assert [s[0]] + s[1..] == s;
      EscapeConcat([s[0]], s[1..]);
      EscapeSingle(s[0]);
      EscapeIsPerCharacter(s[1..]);
    }
  }

  lemma DecodeStep(c: char, rest: string)
    ensures Decode(EscapeChar(c) + rest) == [c] + Decode(rest)
  {
    var s := EscapeChar(c) + rest;
    assert s[|EscapeChar(c)|..] == rest;
    if |EscapeChar(c)| == 1 {
      assert s[0] == c && c != '&';
      assert "&amp;"[0] == '&' && "&lt;"[0] == '&' && "&gt;"[0] == '&' && "&quot;"[0] == '&' && "&apos;"[0] == '&';
    } else {
      assert s[1] == EscapeChar(c)[1] && s[2] == EscapeChar(c)[2];
      assert EscapeChar(c) <= s;
      assert "&amp;"[1] == 'a' && "&amp;"[2] == 'm' && "&apos;"[2] == 'p' && "&lt;"[1] == 'l' && "&gt;"[1] == 'g' && "&quot;"[1] == 'q';
    }
  }

  lemma {:induction false} DecodeEach(s: string)
    ensures Decode(EscapeEach(s)) == s
  {
    if s != [] {
      DecodeStep(s[0], EscapeEach(s[1..]));
      DecodeEach(s[1..]);
    }
  }

  /** What an XML reader makes of an escaped name is the name. */
  lemma EscapeDecodeRoundTrip(s: string)
    ensures Decode(Escape(s)) == s
  {
    EscapeIsPerCharacter(s);
    DecodeEach(s);
  }

  // ---- voucher legs -------------------------------------------------------------------------------------------------------------

  /** A leg as voucher_xml writes it: the two texts, as they stand in the document. */
  datatype XmlEntry = XmlEntry(ledgerName: string, amount: string)

  function WriteEntry(e: Entry): XmlEntry {
    XmlEntry(Escape(e.ledger), Print(e.paise))
  }

  /** A leg as parse_vouchers reads it. */
  function ReadEntry(x: XmlEntry): Entry {
    Entry(Trim(Decode(x.ledgerName)), Paise(Trim(Decode(x.amount))))
  }

  function Reread(entries: seq<Entry>): (r: seq<Entry>)
    ensures |r| == |entries| && forall i :: 0 <= i < |r| ==> r[i] == ReadEntry(WriteEntry(entries[i]))
  {
    seq(|entries|, i requires 0 <= i < |entries| => ReadEntry(WriteEntry(entries[i])))
  }

  predicate Writable(e: Entry) {
    Trim(e.ledger) == e.ledger && MIN_I64 < e.paise <= MAX_I64
  }

  lemma PrintIsPlain(p: int)
    requires MIN_I64 < p <= MAX_I64
    ensures Plain(Print(p))
  {
  }

  lemma {:induction false} DecodeOfPlain(s: string)
    requires Plain(s)
    ensures Decode(s) == s
  {
    if s != [] {
      assert s[0] != '&' && Plain(s[1..]);
      assert "&amp;"[0] == '&' && "&lt;"[0] == '&' && "&gt;"[0] == '&' && "&quot;"[0] == '&' && "&apos;"[0] == '&';
      DecodeOfPlain(s[1..]);
    }
  }

  lemma EntryRoundTrip(e: Entry)
    requires Writable(e)
    ensures ReadEntry(WriteEntry(e)) == e
  {
    EscapeDecodeRoundTrip(e.ledger);
    PrintIsPlain(e.paise);
    DecodeOfPlain(Print(e.paise));
    PlainIsTrimmed(Print(e.paise));
    PrintParseRoundTrip(e.paise);
  }

  lemma EntriesRoundTrip(entries: seq<Entry>)
    requires forall i :: 0 <= i < |entries| ==> Writable(entries[i])
    ensures Reread(entries) == entries
  {
    forall i | 0 <= i < |entries| ensures Reread(entries)[i] == entries[i] {
      EntryRoundTrip(entries[i]);
    }
  }

  /** One positive leg of `total`, all others negative. */
  predicate OnePositive(entries: seq<Entry>, k: nat, total: int) {
    && k < |entries| && entries[k].paise == total
    && forall i :: 0 <= i < |entries| && i != k ==> entries[i].paise <= 0
  }

  lemma {:induction false} TotalIsLargest(entries: seq<Entry>, bound: nat)
    requires forall i :: 0 <= i < |entries| ==> Abs(entries[i].paise) <= bound
    ensures VoucherTotal(entries) <= bound
    ensures (exists i :: 0 <= i < |entries| && Abs(entries[i].paise) == bound) ==> VoucherTotal(entries) == bound
  {
    if entries != [] {
      var rest := entries[1..];
      TotalIsLargest(rest, bound);
      if i :| 1 <= i < |entries| && Abs(entries[i].paise) == bound {
        assert Abs(rest[i - 1].paise) == bound;
      }
    }
  }

  lemma {:induction false} SumOfNegatives(entries: seq<Entry>)
    requires forall i :: 0 <= i < |entries| ==> entries[i].paise <= 0
    ensures Sum(entries) <= 0
    ensures forall i :: 0 <= i < |entries| ==> Sum(entries) <= entries[i].paise
  {
    if entries != [] {
      SumOfNegatives(entries[1..]);
      assert forall i :: 1 <= i < |entries| ==> entries[i] == entries[1..][i - 1];
    }
  }

  lemma {:induction false} LegsWithinTotal(entries: seq<Entry>, k: nat, total: int)
    requires OnePositive(entries, k, total)
    ensures forall i :: 0 <= i < |entries| && i != k ==> Sum(entries) - total <= entries[i].paise
    ensures Sum(entries) <= total
  {
    var rest := entries[1..];
    if k == 0 {
      assert forall i :: 0 <= i < |rest| ==> rest[i].paise <= 0;
      SumOfNegatives(rest);
      assert forall i :: 1 <= i < |entries| ==> entries[i] == rest[i - 1];
    } else {
      assert OnePositive(rest, k - 1, total);
      LegsWithinTotal(rest, k - 1, total);
      assert forall i :: 1 <= i < |entries| ==> entries[i] == rest[i - 1];
    }
  }

  /** The total of a stored voucher verifies exactly when it is the largest leg; the legs always do. */
  lemma TotalVerifiesIffLargestLeg(o: Order, v: Voucher, companyGuid: string)
    requires forall i :: 0 <= i < |o.entries| ==> Writable(o.entries[i])
    requires v.entries == Reread(o.entries)
    ensures var differences := Mismatches(o, Readback(v, VoucherTotal(v.entries), companyGuid), v.remoteId);
      EntriesField !in differences && (TotalField !in differences <==> VoucherTotal(o.entries) == o.total)
  {
    EntriesRoundTrip(o.entries);
    LegAndTotalFields(o, Readback(v, VoucherTotal(v.entries), companyGuid), v.remoteId);
  }

  /** A balanced voucher whose one positive leg is its total comes back with no mismatch of legs or total. */
  lemma BalancedVoucherReadsBack(o: Order, k: nat, v: Voucher, companyGuid: string)
    requires Valid(o) && OnePositive(o.entries, k, o.total)
    requires forall i :: 0 <= i < |o.entries| ==> Writable(o.entries[i])
    requires v.entries == Reread(o.entries)
    ensures var differences := Mismatches(o, Readback(v, VoucherTotal(v.entries), companyGuid), v.remoteId);
      EntriesField !in differences && TotalField !in differences
  {
    LegsWithinTotal(o.entries, k, o.total);
    LargestOfBalanced(o.entries, k, o.total);
    TotalVerifiesIffLargestLeg(o, v, companyGuid);
  }

  lemma LargestOfBalanced(entries: seq<Entry>, k: nat, total: int)
    requires OnePositive(entries, k, total) && Sum(entries) == 0 && total > 0
    ensures VoucherTotal(entries) == total
  {
    LegsWithinTotal(entries, k, total);
    assert Abs(entries[k].paise) == total;
    TotalIsLargest(entries, total);
  }

  const TWO_POSITIVE_LEGS := Order(Sales, "20250101", "guid", "Party", "Sales", 100, "", "", "",
                                   [Entry("Party", 100), Entry("Freight", 50), Entry("Sales", -150)], [])

  lemma TwoPositiveLegs()
    ensures Sum(TWO_POSITIVE_LEGS.entries) == 0 && VoucherTotal(TWO_POSITIVE_LEGS.entries) == 150
  {
    var entries := TWO_POSITIVE_LEGS.entries;
    assert entries[1..] == [Entry("Freight", 50), Entry("Sales", -150)] && entries[1..][1..] == [Entry("Sales", -150)];
    assert entries[1..][1..][1..] == [];
    assert VoucherTotal(entries[1..][1..]) == 150 && Sum(entries[1..][1..]) == -150;
  }

  /** With two positive legs an order may be valid ... */
  lemma TwoPositiveLegsAreValid()
    ensures Valid(TWO_POSITIVE_LEGS)
  {
    var entries := TWO_POSITIVE_LEGS.entries;
    assert entries[0].ledger == "Party" && entries[2].ledger == "Sales";
    TwoPositiveLegs();
  }

  /** ... and writable ... */
  lemma TwoPositiveLegsAreWritable(i: nat)
    requires i < |TWO_POSITIVE_LEGS.entries|
    ensures Writable(TWO_POSITIVE_LEGS.entries[i])
  {
  }

  /** ... and still no honest read-back verifies it. */
  lemma TwoPositiveLegsNeverVerify(o: Order, r: Readback, remoteId: string)
    requires o == TWO_POSITIVE_LEGS && Honest(r)
    ensures Valid(o) && Mismatches(o, r, remoteId) != {}
    ensures forall i :: 0 <= i < |o.entries| ==> Writable(o.entries[i])
  {
    TwoPositiveLegsAreValid();
    forall i | 0 <= i < |o.entries| ensures Writable(o.entries[i]) {
      TwoPositiveLegsAreWritable(i);
    }
    TwoPositiveLegs();
    VerifiableIffLargestLeg(o, remoteId);
  }
}
