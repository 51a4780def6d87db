/**
 * The record fingerprint ("huella"): a canonical `key=value&...` string built from
 * a fixed list of fields, hashed with SHA-256 and encoded in base64.
 */
module HashGenerator {
  import opened Wrappers
  import opened Text
  import opened Records

  /** SHA-256 (raw digest of the string's bytes) and base64, supplied by the runtime. */
  datatype Crypto = Crypto(sha256: string -> seq<bv8>, base64: seq<bv8> -> string)

  const UNSUPPORTED_MESSAGE: string := "Unsupported record type for hash generation."

  /** The `Key=` labels of a submission ("RegistroAlta") data string, in the AEAT order. */
  const SUBMISSION_LABELS: seq<string> := [
    "IDEmisorFactura=", "NumSerieFactura=", "FechaExpedicionFactura=", "TipoFactura=",
    "CuotaTotal=", "ImporteTotal=", "Huella=", "FechaHoraHusoGenRegistro="]

  /** The `Key=` labels of a cancellation ("RegistroAnulacion") data string, in the AEAT order. */
  const CANCELLATION_LABELS: seq<string> := [
    "IDEmisorFacturaAnulada=", "NumSerieFacturaAnulada=", "FechaExpedicionFacturaAnulada=",
    "Huella=", "FechaHoraHusoGenRegistro="]

  // ---------------------------------------------------------------- decimals

  function Sign(cents: int): string {
    if cents < 0 then "-" else ""
  }

  function Abs(cents: int): nat {
    if cents < 0 then -cents else cents
  }

  predicate IsDecimalChar(c: char) {
    IsDigit(c) || c == '-' || c == '.'
  }

  /** number_format($amount, 2, '.', ''): sign, integer part, a dot and exactly two decimals. */
  function FormatTwoDecimals(cents: int): (r: string)
    ensures forall k :: 0 <= k < |r| ==> IsDecimalChar(r[k])
    ensures |r| >= 4 && r[|r| - 3] == '.' && IsDigit(r[|r| - 2]) && IsDigit(r[|r| - 1])
    ensures '.' !in r[..|r| - 3]
  {
    var a := Abs(cents);
    var f := a % 100;
    Sign(cents) + NatToString(a / 100) + "." + [DigitChar(f / 10), DigitChar(f % 10)]
  }

  /** normalizeDecimal: the two-decimal form with trailing zeros, then a trailing dot, removed. */
  function NormalizeDecimal(cents: int): (r: string)
    ensures r == DecimalText(cents)
    ensures r != [] && r[|r| - 1] != '.'
    ensures forall k :: 0 <= k < |r| ==> IsDecimalChar(r[k])
  {
    NormalizeDecimalIsDecimalText(cents);
    TrimRightChar(TrimRightChar(FormatTwoDecimals(cents), '0'), '.')
  }

  /** The decimals of a fraction of 100 as they are written after the dot: none, one or two. */
  function FractionText(f: nat): string
    requires f < 100
  {
    if f == 0 then ""
    else if f % 10 == 0 then "." + [DigitChar(f / 10)]
    else "." + [DigitChar(f / 10), DigitChar(f % 10)]
  }

  /** The shortest decimal numeral of an amount in cents: integer part kept whole, no useless zeros. */
  function DecimalText(cents: int): (r: string)
    ensures r != [] && r[|r| - 1] != '.'
    ensures forall k :: 0 <= k < |r| ==> IsDecimalChar(r[k])
  {
    var a := Abs(cents);
    Sign(cents) + NatToString(a / 100) + FractionText(a % 100)
  }

  /** Stripping zeros and then a dot from `p.d1d2` leaves the integer part p whole. */
  lemma {:induction false} TrimFractionZeros(p: string, d1: char, d2: char)
    requires p != [] && IsDigit(p[|p| - 1]) && IsDigit(d1) && IsDigit(d2)
    ensures TrimRightChar(TrimRightChar(p + "." + [d1, d2], '0'), '.') ==
            if d2 != '0' then p + "." + [d1, d2] else if d1 != '0' then p + "." + [d1] else p
  {
    var f := p + "." + [d1, d2];
    var g := p + "." + [d1];
    var h := p + ".";
    assert f[..|f| - 1] == g && g[..|g| - 1] == h && h[..|h| - 1] == p;
    assert TrimRightChar(p, '.') == p;
    if d2 != '0' {
      assert TrimRightChar(f, '0') == f;
    } else if d1 != '0' {
      assert TrimRightChar(f, '0') == TrimRightChar(g, '0') == g;
    } else {
      assert TrimRightChar(f, '0') == TrimRightChar(g, '0') == TrimRightChar(h, '0') == h;
      assert TrimRightChar(h, '.') == TrimRightChar(p, '.');
    }
  }

  /** The text after the integer part, as the normaliser leaves it, is FractionText. */
  lemma {:induction false} FractionDigits(f: nat)
    requires f < 100
    ensures var d1, d2 := DigitChar(f / 10), DigitChar(f % 10);
      FractionText(f) == if d2 != '0' then "." + [d1, d2] else if d1 != '0' then "." + [d1] else ""
  {
  }

  /** The normaliser strips only fractional zeros and the dot, never a digit of the integer part. */
  lemma {:induction false} NormalizeDecimalIsDecimalText(cents: int)
    ensures TrimRightChar(TrimRightChar(FormatTwoDecimals(cents), '0'), '.') == DecimalText(cents)
  {
    var a := Abs(cents);
    var f := a % 100;
    var p := Sign(cents) + NatToString(a / 100);
    var d1, d2 := DigitChar(f / 10), DigitChar(f % 10);
    assert p[|p| - 1] == NatToString(a / 100)[|NatToString(a / 100)| - 1];
    TrimFractionZeros(p, d1, d2);
    FractionDigits(f);
    AppendFraction(p, d1, d2);
  }

  lemma AppendFraction(p: string, d1: char, d2: char)
    ensures (if d2 != '0' then p + "." + [d1, d2] else if d1 != '0' then p + "." + [d1] else p) ==
            p + (if d2 != '0' then "." + [d1, d2] else if d1 != '0' then "." + [d1] else "")
  {
    if d2 != '0' {
      assert p + "." + [d1, d2] == p + ("." + [d1, d2]);
    } else if d1 != '0' {
      assert p + "." + [d1] == p + ("." + [d1]);
    } else {
      assert p == p + "";
    }
  }

  /** The amount written by a fraction numeral of one or two digits. */
  function FractionValue(t: string): nat
    requires 1 <= |t| <= 2 && AllDigits(t)
  {
    if |t| == 1 then 10 * DigitValue(t[0]) else 10 * DigitValue(t[0]) + DigitValue(t[1])
  }

  function ParseUnsigned(s: string): Option<nat> {
    var pieces := Split('.', s);
    if |pieces| == 1 && pieces[0] != [] && AllDigits(pieces[0]) then
      Some(100 * StringToNat(pieces[0]))
    else if |pieces| == 2 && pieces[0] != [] && AllDigits(pieces[0]) && 1 <= |pieces[1]| <= 2 && AllDigits(pieces[1]) then
      Some(100 * StringToNat(pieces[0]) + FractionValue(pieces[1]))
    else
      None
  }

  /** Reads a decimal numeral back into cents (the inverse of the normaliser and of number_format). */
  function ParseAmount(s: string): Option<int> {
    if s != [] && s[0] == '-' then
      match ParseUnsigned(s[1..])
      case Some(v) => Some(0 - v)
      case None => None
    else
      match ParseUnsigned(s)
      case Some(v) => Some(v)
      case None => None
  }

  /** The decimals after the dot read back as the fraction they came from. */
  lemma {:induction false} FractionRoundTrip(f: nat)
    requires 0 < f < 100
    ensures var t := FractionText(f);
      t != [] && t[0] == '.' && 1 <= |t[1..]| <= 2 && AllDigits(t[1..]) && '.' !in t[1..] && FractionValue(t[1..]) == f
  {
    var t := FractionText(f);
    if f % 10 == 0 {
      assert t[1..] == [DigitChar(f / 10)];
    } else {
      assert t[1..] == [DigitChar(f / 10), DigitChar(f % 10)];
    }
  }

  /** An integer numeral holds no dot. */
  lemma NumeralHasNoDot(m: nat)
    ensures '.' !in NatToString(m)
  {
    var n := NatToString(m);
    forall k | 0 <= k < |n| ensures n[k] != '.' {
      assert IsDigit(n[k]);
    }
  }

  lemma {:induction false} ParseWholeNumeral(w: nat)
    ensures ParseUnsigned(NatToString(w)) == Some(100 * w)
  {
    NatStringRoundTrip(w);
    NumeralHasNoDot(w);
    SplitFree('.', NatToString(w));
  }

  lemma {:induction false} ParseFractionNumeral(w: nat, f: nat)
    requires 0 < f < 100
    ensures ParseUnsigned(NatToString(w) + FractionText(f)) == Some(100 * w + f)
  {
    var n := NatToString(w);
    var t := FractionText(f);
    NatStringRoundTrip(w);
    NumeralHasNoDot(w);
    FractionRoundTrip(f);
    var ds := t[1..];
    assert n + t == n + ['.'] + ds by {
      assert t == ['.'] + ds;
    }
    SplitAtFirst('.', n, ds);
    SplitFree('.', ds);
    assert Split('.', n + t) == [n, ds];
  }

  lemma {:induction false} ParseUnsignedDecimal(a: nat)
    ensures ParseUnsigned(NatToString(a / 100) + FractionText(a % 100)) == Some(a)
  {
    if a % 100 == 0 {
      assert NatToString(a / 100) + FractionText(a % 100) == NatToString(a / 100);
      ParseWholeNumeral(a / 100);
    } else {
      ParseFractionNumeral(a / 100, a % 100);
    }
  }

  /** A numeral that starts with a digit reads back with the sign of the amount in front. */
  lemma {:induction false} ParseSigned(body: string, cents: int)
    requires body != [] && IsDigit(body[0]) && ParseUnsigned(body) == Some(Abs(cents))
    ensures ParseAmount(Sign(cents) + body) == Some(cents)
  {
    if cents < 0 {
      assert Sign(cents) + body == "-" + body;
      assert ("-" + body)[1..] == body;
    } else {
      assert Sign(cents) + body == body;
    }
  }

  /** The unsigned part of the numeral of `a` cents starts with a digit and reads back as `a`. */
  lemma {:induction false} UnsignedDecimalParses(a: nat)
    ensures var body := NatToString(a / 100) + FractionText(a % 100);
      body != [] && IsDigit(body[0]) && ParseUnsigned(body) == Some(a)
  {
    var n := NatToString(a / 100);
    ParseUnsignedDecimal(a);
    assert (n + FractionText(a % 100))[0] == n[0];
  }

  /** The shortest numeral of an amount reads back as that amount. */
  lemma {:induction false} DecimalTextRoundTrip(cents: int)
    ensures ParseAmount(DecimalText(cents)) == Some(cents)
  {
    var a := Abs(cents);
    var n, t := NatToString(a / 100), FractionText(a % 100);
    UnsignedDecimalParses(a);
    ParseSigned(n + t, cents);
    assert DecimalText(cents) == Sign(cents) + (n + t) by {
      assert Sign(cents) + n + t == Sign(cents) + (n + t);
    }
  }

  /** A numeral w followed by a dot and the two digits of f reads back as 100·w + f cents. */
  lemma {:induction false} ParseTwoDecimalNumeral(w: nat, f: nat)
    requires f < 100
    ensures ParseUnsigned(NatToString(w) + "." + [DigitChar(f / 10), DigitChar(f % 10)]) == Some(100 * w + f)
  {
    var n := NatToString(w);
    var ds := [DigitChar(f / 10), DigitChar(f % 10)];
    NatStringRoundTrip(w);
    NumeralHasNoDot(w);
    assert n + "." + ds == n + ['.'] + ds;
    SplitAtFirst('.', n, ds);
    SplitFree('.', ds);
    assert Split('.', n + "." + ds) == [n, ds];
    assert AllDigits(ds);
    assert FractionValue(ds) == 10 * (f / 10) + f % 10;
  }

  /** number_format's two-decimal text loses nothing either: it reads back as the amount. */
  lemma {:induction false} FormatTwoDecimalsRoundTrip(cents: int)
    ensures ParseAmount(FormatTwoDecimals(cents)) == Some(cents)
  {
    var a := Abs(cents);
    var n := NatToString(a / 100);
    var ds := [DigitChar(a % 100 / 10), DigitChar(a % 100 % 10)];
    var body := n + "." + ds;
    ParseTwoDecimalNumeral(a / 100, a % 100);
    assert ParseUnsigned(body) == Some(a);
    assert body[0] == n[0];
    ParseSigned(body, cents);
    assert FormatTwoDecimals(cents) == Sign(cents) + n + "." + ds;
    assert Sign(cents) + n + "." + ds == Sign(cents) + body;
  }

  /** Normalising an amount loses nothing: it can be read back exactly. */
  lemma {:induction false} NormalizeDecimalRoundTrip(cents: int)
    ensures ParseAmount(NormalizeDecimal(cents)) == Some(cents)
  {
    DecimalTextRoundTrip(cents);
  }

  /** Distinct amounts give distinct normalised numerals. */
  lemma {:induction false} NormalizeDecimalInjective(x: int, y: int)
    ensures NormalizeDecimal(x) == NormalizeDecimal(y) ==> x == y
  {
    NormalizeDecimalRoundTrip(x);
    NormalizeDecimalRoundTrip(y);
  }

  /** A whole amount is written as its integer part alone: both zeros and the dot go. */
  lemma {:induction false} NormalizeWholeAmount(cents: int, w: nat)
    requires cents == 100 * w
    ensures NormalizeDecimal(cents) == NatToString(w)
  {
    assert Abs(cents) / 100 == w && Abs(cents) % 100 == 0;
    assert DecimalText(cents) == NatToString(w) + "";
  }

  /** An amount with one significant decimal keeps that decimal and drops the trailing zero. */
  lemma {:induction false} NormalizeOneDecimal(cents: int, w: nat, d: nat)
    requires cents == 100 * w + 10 * d && 0 < d < 10
    ensures NormalizeDecimal(cents) == NatToString(w) + "." + [DigitChar(d)]
  {
    var f := 10 * d;
    assert Abs(cents) / 100 == w && Abs(cents) % 100 == f;
    assert f % 10 == 0 && f / 10 == d;
    assert DecimalText(cents) == NatToString(w) + ("." + [DigitChar(d)]);
  }

  /** An amount whose second decimal is not zero keeps both decimals. */
  lemma {:induction false} NormalizeTwoDecimals(cents: int, w: nat, f: nat)
    requires cents == 100 * w + f && 0 < f < 100 && f % 10 != 0
    ensures NormalizeDecimal(cents) == NatToString(w) + "." + [DigitChar(f / 10), DigitChar(f % 10)]
  {
    assert Abs(cents) / 100 == w && Abs(cents) % 100 == f;
    assert DecimalText(cents) == NatToString(w) + ("." + [DigitChar(f / 10), DigitChar(f % 10)]);
  }

  /** The integer parts of the published examples, written out. */
  lemma NumeralExamples()
    ensures NatToString(21) == "21" && NatToString(121) == "121"
    ensures NatToString(10) == "10" && NatToString(110) == "110"
  {
  }

  /** The amounts of the first published example: 21.00 and 121.00 lose their decimals. */
  lemma {:induction false} WholeAmountExamples(tax: int, total: int)
    requires tax == 2100 && total == 12100
    ensures NormalizeDecimal(tax) == "21" && NormalizeDecimal(total) == "121"
  {
    NormalizeWholeAmount(tax, 21);
    NormalizeWholeAmount(total, 121);
    NumeralExamples();
  }

  /** The amounts of the chained published example: 10.50 and 110.50 keep one decimal. */
  lemma {:induction false} OneDecimalExamples(tax: int, total: int)
    requires tax == 1050 && total == 11050
    ensures NormalizeDecimal(tax) == "10.5" && NormalizeDecimal(total) == "110.5"
  {
    NormalizeOneDecimal(tax, 10, 5);
    NormalizeOneDecimal(total, 110, 5);
    OneDecimalNumerals();
  }

  lemma OneDecimalNumerals()
    ensures NatToString(10) + "." + [DigitChar(5)] == "10.5"
    ensures NatToString(110) + "." + [DigitChar(5)] == "110.5"
  {
    NumeralExamples();
  }

  // ---------------------------------------------------------------- data string

  /** `$chaining?->getPreviousInvoice()?->hash ?? ''`: empty unless a previous hash is present. */
  function PreviousHash(chaining: Option<Chaining>): (r: string)
    ensures HasPreviousHash(chaining) ==> r == chaining.value.previousInvoice.value.hash.value
    ensures !HasPreviousHash(chaining) ==> r == ""
  {
    match chaining
    case None => ""
    case Some(c) =>
      match c.previousInvoice
      case None => ""
      case Some(p) =>
        match p.hash
        case None => ""
        case Some(h) => h
  }

  /** Whether the chaining block names a previous record that carries a hash. */
  predicate HasPreviousHash(chaining: Option<Chaining>) {
    chaining.Some? && chaining.value.previousInvoice.Some? && chaining.value.previousInvoice.value.hash.Some?
  }

  /** TipoFactura: the backing value of an enum case, else the string form of the scalar. */
  function TypeText(t: InvoiceType): (r: string)
    ensures t.BackedCase? ==> r == t.value
    ensures t.Scalar? ==> r == t.text
  {
    match t
    case BackedCase(v) => v
    case Scalar(x) => x
  }

  /** The record types the fingerprint is defined for. */
  predicate Supported(r: Record) {
    r.Submission? || r.Cancellation?
  }

  function Labels(r: Record): (labels: seq<string>)
    requires Supported(r)
    ensures |labels| == if r.Submission? then 8 else 5
  {
    if r.Submission? then SUBMISSION_LABELS else CANCELLATION_LABELS
  }

  /** The values hashed for a record, trimmed and normalised, in the order of its labels. */
  function HashedValues(r: Record): (vs: seq<string>)
    requires Supported(r)
    ensures |vs| == if r.Submission? then 8 else 5
  {
    var id := r.invoiceId;
    if r.Submission? then
      Fields8(Trim(id.issuerNif), Trim(id.seriesNumber), Trim(id.issueDate), Trim(TypeText(r.invoiceType)),
        NormalizeDecimal(r.taxAmount), NormalizeDecimal(r.totalAmount), Trim(PreviousHash(r.chaining)), Trim(r.recordTimestamp))
    else
      Fields5(Trim(id.issuerNif), Trim(id.seriesNumber), Trim(id.issueDate), Trim(PreviousHash(r.chaining)), Trim(r.recordTimestamp))
  }

  function Fields8(a0: string, a1: string, a2: string, a3: string, a4: string, a5: string, a6: string, a7: string): (vs: seq<string>)
    ensures |vs| == 8 && vs[0] == a0 && vs[1] == a1 && vs[2] == a2 && vs[3] == a3
    ensures vs[4] == a4 && vs[5] == a5 && vs[6] == a6 && vs[7] == a7
  {
    [a0, a1, a2, a3, a4, a5, a6, a7]
  }

  function Fields5(a0: string, a1: string, a2: string, a3: string, a4: string): (vs: seq<string>)
    ensures |vs| == 5 && vs[0] == a0 && vs[1] == a1 && vs[2] == a2 && vs[3] == a3 && vs[4] == a4
  {
    [a0, a1, a2, a3, a4]
  }

  /** Each value prefixed with its label: the `$parts` array. */
  function Labelled(labels: seq<string>, values: seq<string>): (parts: seq<string>)
    requires |labels| == |values|
    ensures |parts| == |labels|
  {
    if labels == [] then [] else [labels[0] + values[0]] + Labelled(labels[1..], values[1..])
  }

  lemma {:induction false} LabelledIndex(labels: seq<string>, values: seq<string>, k: nat)
    requires |labels| == |values| && k < |labels|
    ensures Labelled(labels, values)[k] == labels[k] + values[k]
  {
    if k > 0 {
      LabelledIndex(labels[1..], values[1..], k - 1);
    }
  }

  /** The `$parts` array of a record: `Key=value` for every hashed field, in order. */
  function DataParts(r: Record): (parts: seq<string>)
    requires Supported(r)
    ensures |parts| == |Labels(r)|
    ensures forall k :: 0 <= k < |parts| ==> parts[k] == Labels(r)[k] + HashedValues(r)[k]
  {
    var parts := Labelled(Labels(r), HashedValues(r));
    forall k | 0 <= k < |parts| ensures parts[k] == Labels(r)[k] + HashedValues(r)[k] {
      LabelledIndex(Labels(r), HashedValues(r), k);
    }
    parts
  }

  /** buildDataString: the parts imploded with `&`, or an error for any other record type. */
  function BuildDataString(r: Record): (res: Result<string, Exception>)
    ensures res.Success? <==> Supported(r)
    ensures res.Failure? ==> res.error == InvalidArgument(UNSUPPORTED_MESSAGE)
    ensures res.Success? ==> res.value == Join('&', DataParts(r))
  {
    if Supported(r) then Success(Join('&', DataParts(r)))
    else Failure(InvalidArgument(UNSUPPORTED_MESSAGE))
  }

  /** generate: base64 of the SHA-256 digest of the data string. */
  function Generate(r: Record, crypto: Crypto): (res: Result<string, Exception>)
    ensures res.Success? <==> Supported(r)
    ensures res.Failure? ==> res.error == InvalidArgument(UNSUPPORTED_MESSAGE)
    ensures res.Success? ==> res.value == crypto.base64(crypto.sha256(BuildDataString(r).value))
  {
    match BuildDataString(r)
    case Success(data) => Success(crypto.base64(crypto.sha256(data)))
    case Failure(e) => Failure(e)
  }

  // ---------------------------------------------------------------- layout

  lemma {:induction false} SubmissionLabels(v: seq<string>)
    requires |v| == 8
    ensures Labelled(SUBMISSION_LABELS, v) == [
      "IDEmisorFactura=" + v[0], "NumSerieFactura=" + v[1], "FechaExpedicionFactura=" + v[2], "TipoFactura=" + v[3],
      "CuotaTotal=" + v[4], "ImporteTotal=" + v[5], "Huella=" + v[6], "FechaHoraHusoGenRegistro=" + v[7]]
  {
    var p := SUBMISSION_LABELS;
    assert Labelled(p[7..], v[7..]) == [p[7] + v[7]];
    assert Labelled(p[6..], v[6..]) == [p[6] + v[6]] + Labelled(p[7..], v[7..]);
    assert Labelled(p[5..], v[5..]) == [p[5] + v[5]] + Labelled(p[6..], v[6..]);
    assert Labelled(p[4..], v[4..]) == [p[4] + v[4]] + Labelled(p[5..], v[5..]);
    assert Labelled(p[3..], v[3..]) == [p[3] + v[3]] + Labelled(p[4..], v[4..]);
    assert Labelled(p[2..], v[2..]) == [p[2] + v[2]] + Labelled(p[3..], v[3..]);
    assert Labelled(p[1..], v[1..]) == [p[1] + v[1]] + Labelled(p[2..], v[2..]);
  }

  lemma {:induction false} CancellationLabels(v: seq<string>)
    requires |v| == 5
    ensures Labelled(CANCELLATION_LABELS, v) == [
      "IDEmisorFacturaAnulada=" + v[0], "NumSerieFacturaAnulada=" + v[1], "FechaExpedicionFacturaAnulada=" + v[2],
      "Huella=" + v[3], "FechaHoraHusoGenRegistro=" + v[4]]
  {
    var p := CANCELLATION_LABELS;
    assert Labelled(p[4..], v[4..]) == [p[4] + v[4]];
    assert Labelled(p[3..], v[3..]) == [p[3] + v[3]] + Labelled(p[4..], v[4..]);
    assert Labelled(p[2..], v[2..]) == [p[2] + v[2]] + Labelled(p[3..], v[3..]);
    assert Labelled(p[1..], v[1..]) == [p[1] + v[1]] + Labelled(p[2..], v[2..]);
  }

  /** The parts of a submission ("RegistroAlta"): eight `Key=value` pairs in the AEAT order. */
  lemma {:induction false} SubmissionLayout(r: Record)
    requires r.Submission?
    ensures DataParts(r) == [
      "IDEmisorFactura=" + Trim(r.invoiceId.issuerNif),
      "NumSerieFactura=" + Trim(r.invoiceId.seriesNumber),
      "FechaExpedicionFactura=" + Trim(r.invoiceId.issueDate),
      "TipoFactura=" + Trim(TypeText(r.invoiceType)),
      "CuotaTotal=" + NormalizeDecimal(r.taxAmount),
      "ImporteTotal=" + NormalizeDecimal(r.totalAmount),
      "Huella=" + Trim(PreviousHash(r.chaining)),
      "FechaHoraHusoGenRegistro=" + Trim(r.recordTimestamp)]
  {
    SubmissionLabels(HashedValues(r));
  }

  /** The submission layout with the amounts and the Huella already worked out. */
  lemma {:induction false} SubmissionLayoutWith(r: Record, tax: string, total: string, huella: string)
    requires r.Submission? && NormalizeDecimal(r.taxAmount) == tax && NormalizeDecimal(r.totalAmount) == total
    requires Trim(PreviousHash(r.chaining)) == huella
    ensures DataParts(r) == [
      "IDEmisorFactura=" + Trim(r.invoiceId.issuerNif),
      "NumSerieFactura=" + Trim(r.invoiceId.seriesNumber),
      "FechaExpedicionFactura=" + Trim(r.invoiceId.issueDate),
      "TipoFactura=" + Trim(TypeText(r.invoiceType)),
      "CuotaTotal=" + tax, "ImporteTotal=" + total, "Huella=" + huella,
      "FechaHoraHusoGenRegistro=" + Trim(r.recordTimestamp)]
  {
    SubmissionLayout(r);
  }

  /** The parts of a cancellation ("RegistroAnulacion"): five `Key=value` pairs in the AEAT order. */
  lemma {:induction false} CancellationLayout(r: Record)
    requires r.Cancellation?
    ensures DataParts(r) == [
      "IDEmisorFacturaAnulada=" + Trim(r.invoiceId.issuerNif),
      "NumSerieFacturaAnulada=" + Trim(r.invoiceId.seriesNumber),
      "FechaExpedicionFacturaAnulada=" + Trim(r.invoiceId.issueDate),
      "Huella=" + Trim(PreviousHash(r.chaining)),
      "FechaHoraHusoGenRegistro=" + Trim(r.recordTimestamp)]
  {
    CancellationLabels(HashedValues(r));
  }

  /** A first record in its chain, for 21.00 tax on 121.00: whole amounts and an empty Huella. */
  lemma {:induction false} FirstRecordExample(r: Record)
    requires r.Submission? && r.taxAmount == 2100 && r.totalAmount == 12100 && r.chaining == Some(Chaining(None))
    ensures DataParts(r) == [
      "IDEmisorFactura=" + Trim(r.invoiceId.issuerNif),
      "NumSerieFactura=" + Trim(r.invoiceId.seriesNumber),
      "FechaExpedicionFactura=" + Trim(r.invoiceId.issueDate),
      "TipoFactura=" + Trim(TypeText(r.invoiceType)),
      "CuotaTotal=" + "21", "ImporteTotal=" + "121", "Huella=" + "",
      "FechaHoraHusoGenRegistro=" + Trim(r.recordTimestamp)]
  {
    WholeAmountExamples(r.taxAmount, r.totalAmount);
    assert Trim(PreviousHash(r.chaining)) == "" by {
      TrimmedIsFixed("");
    }
    SubmissionLayoutWith(r, "21", "121", "");
  }

  /** A record chained to a previous one, for 10.50 tax on 110.50: one decimal kept, the previous hash as Huella. */
  lemma {:induction false} ChainedRecordExample(r: Record, h: string)
    requires r.Submission? && r.taxAmount == 1050 && r.totalAmount == 11050
    requires r.chaining.Some? && r.chaining.value.previousInvoice.Some?
    requires r.chaining.value.previousInvoice.value.hash == Some(h)
    ensures DataParts(r) == [
      "IDEmisorFactura=" + Trim(r.invoiceId.issuerNif),
      "NumSerieFactura=" + Trim(r.invoiceId.seriesNumber),
      "FechaExpedicionFactura=" + Trim(r.invoiceId.issueDate),
      "TipoFactura=" + Trim(TypeText(r.invoiceType)),
      "CuotaTotal=" + "10.5", "ImporteTotal=" + "110.5", "Huella=" + Trim(h),
      "FechaHoraHusoGenRegistro=" + Trim(r.recordTimestamp)]
  {
    OneDecimalExamples(r.taxAmount, r.totalAmount);
    assert PreviousHash(r.chaining) == h;
    SubmissionLayoutWith(r, "10.5", "110.5", Trim(h));
  }

  // ---------------------------------------------------------------- reading a data string back

  /** Strips the expected label off each part; None when a part does not carry its label. */
  function Unlabel(labels: seq<string>, parts: seq<string>): (r: Option<seq<string>>)
    ensures r.Some? ==> |r.value| == |parts| == |labels|
  {
    if |labels| != |parts| then None
    else if parts == [] then Some([])
    else if labels[0] <= parts[0] then
      match Unlabel(labels[1..], parts[1..])
      case Some(rest) => Some([parts[0][|labels[0]|..]] + rest)
      case None => None
    else None
  }

  lemma {:induction false} UnlabelLabelled(labels: seq<string>, values: seq<string>)
    requires |labels| == |values|
    ensures Unlabel(labels, Labelled(labels, values)) == Some(values)
  {
    if labels != [] {
      UnlabelLabelled(labels[1..], values[1..]);
      var head := labels[0] + values[0];
      assert labels[0] <= head && head[|labels[0]|..] == values[0];
      assert [values[0]] + values[1..] == values;
    }
  }

  /** Reads the values back out of a data string laid out with the given labels. */
  function ParseDataString(labels: seq<string>, data: string): Option<seq<string>> {
    Unlabel(labels, Split('&', data))
  }

  /** No hashed value contains the `&` separator. */
  predicate SeparatorFree(r: Record)
    requires Supported(r)
  {
    forall k :: 0 <= k < |HashedValues(r)| ==> '&' !in HashedValues(r)[k]
  }

  /**
   * Without SeparatorFree the data string is ambiguous: the separator is not escaped, so an `&`
   * plus a label inside one field reads the same as two fields.
   */
  lemma {:induction false} SeparatorAmbiguity(a: Record, b: Record, x: string, y: string, z: string)
    requires a.Cancellation? && b.Cancellation?
    requires Trim(a.invoiceId.issuerNif) == x + "&" + CANCELLATION_LABELS[1] + y && Trim(a.invoiceId.seriesNumber) == z
    requires Trim(b.invoiceId.issuerNif) == x && Trim(b.invoiceId.seriesNumber) == y + "&" + CANCELLATION_LABELS[1] + z
    requires a.invoiceId.issueDate == b.invoiceId.issueDate && a.chaining == b.chaining
    requires a.recordTimestamp == b.recordTimestamp
    ensures HashedValues(a) != HashedValues(b)
    ensures BuildDataString(a) == BuildDataString(b)
  {
    IssuersDiffer(a, b, x, y);
    SameDataString(a, b, x, y, z);
  }

  /** The equal-data-string half of SeparatorAmbiguity. */
  lemma {:induction false} SameDataString(a: Record, b: Record, x: string, y: string, z: string)
    requires a.Cancellation? && b.Cancellation?
    requires Trim(a.invoiceId.issuerNif) == x + "&" + CANCELLATION_LABELS[1] + y && Trim(a.invoiceId.seriesNumber) == z
    requires Trim(b.invoiceId.issuerNif) == x && Trim(b.invoiceId.seriesNumber) == y + "&" + CANCELLATION_LABELS[1] + z
    requires a.invoiceId.issueDate == b.invoiceId.issueDate && a.chaining == b.chaining
    requires a.recordTimestamp == b.recordTimestamp
    ensures BuildDataString(a).value == BuildDataString(b).value
  {
    var tail := CancellationTail(a);
    CancellationJoin(a, x + "&" + CANCELLATION_LABELS[1] + y, z);
    CancellationJoin(b, x, y + "&" + CANCELLATION_LABELS[1] + z);
    assert CancellationTail(b) == tail;
    JoinAmbiguity(CANCELLATION_LABELS[0], CANCELLATION_LABELS[1], x, y, z, tail);
  }

  lemma {:induction false} IssuersDiffer(a: Record, b: Record, x: string, y: string)
    requires a.Cancellation? && b.Cancellation?
    requires Trim(a.invoiceId.issuerNif) == x + "&" + CANCELLATION_LABELS[1] + y && Trim(b.invoiceId.issuerNif) == x
    ensures HashedValues(a) != HashedValues(b)
  {
    assert |HashedValues(a)[0]| != |HashedValues(b)[0]|;
  }

  /** The last three parts of a cancellation: issue date, previous hash and timestamp, labelled. */
  function CancellationTail(r: Record): (tail: seq<string>)
    requires r.Cancellation?
    ensures |tail| == 3
  {
    Labelled(CANCELLATION_LABELS[2..], [Trim(r.invoiceId.issueDate), Trim(PreviousHash(r.chaining)), Trim(r.recordTimestamp)])
  }

  /** A cancellation's data string: the labelled issuer and number, then the tail, imploded. */
  lemma {:induction false} CancellationJoin(r: Record, issuer: string, number: string)
    requires r.Cancellation? && Trim(r.invoiceId.issuerNif) == issuer && Trim(r.invoiceId.seriesNumber) == number
    ensures BuildDataString(r).value == Join('&', [CANCELLATION_LABELS[0] + issuer, CANCELLATION_LABELS[1] + number] + CancellationTail(r))
  {
    var v := HashedValues(r);
    assert BuildDataString(r).value == Join('&', Labelled(CANCELLATION_LABELS, v));
    LabelledTwoHeads(CANCELLATION_LABELS, v);
    assert v[2..] == [Trim(r.invoiceId.issueDate), Trim(PreviousHash(r.chaining)), Trim(r.recordTimestamp)];
  }

  lemma {:induction false} LabelledTwoHeads(labels: seq<string>, values: seq<string>)
    requires |labels| == |values| >= 3
    ensures Labelled(labels, values) ==
      [labels[0] + values[0], labels[1] + values[1]] + Labelled(labels[2..], values[2..])
  {
    assert labels[1..][1..] == labels[2..] && values[1..][1..] == values[2..];
  }

  /** Two part lists that differ only by where `&` plus the second label n sits join to the same text. */
  lemma JoinAmbiguity(i: string, n: string, x: string, y: string, z: string, rest: seq<string>)
    requires |rest| >= 1
    ensures Join('&', [i + (x + "&" + n + y), n + z] + rest) == Join('&', [i + x, n + (y + "&" + n + z)] + rest)
  {
    JoinPrefix('&', i + (x + "&" + n + y), n + z, rest);
    JoinPrefix('&', i + x, n + (y + "&" + n + z), rest);
    SwapSeparator(i, n, x, y, z);
  }

  lemma JoinPrefix(sep: char, p0: string, p1: string, rest: seq<string>)
    requires |rest| >= 1
    ensures Join(sep, [p0, p1] + rest) == p0 + [sep] + p1 + [sep] + Join(sep, rest)
  {
    JoinTwoHeads(sep, [p0, p1] + rest);
    assert ([p0, p1] + rest)[2..] == rest;
  }

  /** Moving `&` plus a label from the end of one part to the start of the next leaves the joined text unchanged. */
  lemma SwapSeparator(i: string, n: string, x: string, y: string, z: string)
    ensures i + (x + "&" + n + y) + ['&'] + (n + z) == i + x + ['&'] + (n + (y + "&" + n + z))
  {
    assert i + (x + "&" + n + y) + ['&'] + (n + z) == i + x + "&" + n + y + "&" + n + z;
    assert i + x + ['&'] + (n + (y + "&" + n + z)) == i + x + "&" + n + y + "&" + n + z;
  }

  /**
   * Concretely: the cancellations with ids (`x&NumSerieFacturaAnulada=y`, `z`) and (`x`, `y&NumSerieFacturaAnulada=z`),
   * for any non-blank characters x, y and z (say 'X', 'Y' and 'Z'), are different but hash the same data string.
   */
  lemma {:induction false} SeparatorAmbiguityExample(a: Record, b: Record, x: char, y: char, z: char)
    requires !IsPhpWhitespace(x) && !IsPhpWhitespace(y) && !IsPhpWhitespace(z)
    requires a.Cancellation? && a.invoiceId.issuerNif == [x] + "&" + "NumSerieFacturaAnulada=" + [y] && a.invoiceId.seriesNumber == [z]
    requires b.Cancellation? && b.invoiceId.issuerNif == [x] && b.invoiceId.seriesNumber == [y] + "&" + "NumSerieFacturaAnulada=" + [z]
    requires a.invoiceId.issueDate == b.invoiceId.issueDate && a.chaining == b.chaining
    requires a.recordTimestamp == b.recordTimestamp
    ensures a != b && BuildDataString(a) == BuildDataString(b)
  {
    assert CANCELLATION_LABELS[1] == "NumSerieFacturaAnulada=";
    TrimmedJoinedId(x, y);
    TrimmedJoinedId(y, z);
    TrimmedChar(x);
    TrimmedChar(z);
    SeparatorAmbiguity(a, b, [x], [y], [z]);
  }

  /** `c&NumSerieFacturaAnulada=d` with non-blank c and d is its own trim. */
  lemma TrimmedJoinedId(c: char, d: char)
    requires !IsPhpWhitespace(c) && !IsPhpWhitespace(d)
    ensures Trim([c] + "&" + "NumSerieFacturaAnulada=" + [d]) == [c] + "&" + "NumSerieFacturaAnulada=" + [d]
  {
    var s := [c] + "&" + "NumSerieFacturaAnulada=" + [d];
    assert s[0] == c && s[|s| - 1] == d;
    TrimmedIsFixed(s);
  }

  lemma TrimmedChar(c: char)
    requires !IsPhpWhitespace(c)
    ensures Trim([c]) == [c]
  {
    TrimmedIsFixed([c]);
  }

  lemma LabelsSeparatorFree(r: Record, k: nat)
    requires Supported(r) && k < |Labels(r)|
    ensures '&' !in Labels(r)[k]
  {
    if r.Submission? {
      SubmissionLabelSeparatorFree(k);
    } else {
      CancellationLabelSeparatorFree(k);
    }
  }

  lemma SubmissionLabelSeparatorFree(k: nat)
    requires k < |SUBMISSION_LABELS|
    ensures '&' !in SUBMISSION_LABELS[k]
  {
  }

  lemma CancellationLabelSeparatorFree(k: nat)
    requires k < |CANCELLATION_LABELS|
    ensures '&' !in CANCELLATION_LABELS[k]
  {
  }

  lemma {:induction false} PartsSeparatorFree(r: Record)
    requires Supported(r) && SeparatorFree(r)
    ensures forall k :: 0 <= k < |DataParts(r)| ==> '&' !in DataParts(r)[k]
  {
    forall k | 0 <= k < |DataParts(r)| ensures '&' !in DataParts(r)[k] {
      LabelsSeparatorFree(r, k);
    }
  }

  /** The data string can be read back into exactly the hashed values when none of them holds `&`. */
  lemma {:induction false} DataStringRoundTrip(r: Record)
    requires Supported(r) && SeparatorFree(r)
    ensures ParseDataString(Labels(r), BuildDataString(r).value) == Some(HashedValues(r))
  {
    PartsSeparatorFree(r);
    SplitJoin('&', DataParts(r));
    UnlabelLabelled(Labels(r), HashedValues(r));
  }

  /** A data string pins down the record type and every hashed value. */
  lemma {:induction false} DataStringDeterminesHashedValues(a: Record, b: Record)
    requires Supported(a) && SeparatorFree(a)
    requires Supported(b) && SeparatorFree(b)
    requires BuildDataString(a) == BuildDataString(b)
    ensures a.Submission? == b.Submission?
    ensures HashedValues(a) == HashedValues(b)
  {
    PartsSeparatorFree(a);
    PartsSeparatorFree(b);
    SplitJoin('&', DataParts(a));
    SplitJoin('&', DataParts(b));
    assert DataParts(a) == DataParts(b);
    assert a.Submission? == b.Submission?;
    DataStringRoundTrip(a);
    DataStringRoundTrip(b);
  }

  /** Two submissions with the same data string agree on both amounts, to the cent. */
  lemma {:induction false} DataStringDeterminesAmounts(a: Record, b: Record)
    requires a.Submission? && SeparatorFree(a)
    requires b.Submission? && SeparatorFree(b)
    requires BuildDataString(a) == BuildDataString(b)
    ensures a.taxAmount == b.taxAmount && a.totalAmount == b.totalAmount
  {
    DataStringDeterminesHashedValues(a, b);
    NormalizeDecimalInjective(a.taxAmount, b.taxAmount);
    NormalizeDecimalInjective(a.totalAmount, b.totalAmount);
  }

  // ---------------------------------------------------------------- the chain of fingerprints

  /** SHA-256 and base64 taken as injective (no collisions are ever met). */
  ghost predicate CollisionFree(crypto: Crypto) {
    (forall x, y :: crypto.sha256(x) == crypto.sha256(y) ==> x == y) &&
    (forall d, e :: crypto.base64(d) == crypto.base64(e) ==> d == e)
  }

  /** base64 output never holds `&` and has no surrounding whitespace. */
  ghost predicate CanonicalDigests(crypto: Crypto) {
    forall d :: '&' !in crypto.base64(d) && Trim(crypto.base64(d)) == crypto.base64(d)
  }

  /** Records in issue order, each carrying the fingerprint of the one before as its previous hash. */
  ghost predicate Linked(chain: seq<Record>, crypto: Crypto) {
    (forall i :: 0 <= i < |chain| ==> Supported(chain[i]) && SeparatorFree(chain[i])) &&
    (forall k :: 0 <= k < |chain| - 1 ==> LinkedAt(chain, k, crypto))
  }

  /** Record k + 1 names the fingerprint of record k as its previous hash. */
  ghost predicate LinkedAt(chain: seq<Record>, k: nat, crypto: Crypto)
    requires k + 1 < |chain| && Supported(chain[k]) && Supported(chain[k + 1])
  {
    PreviousHash(chain[k + 1].chaining) == Generate(chain[k], crypto).value
  }

  /** Equal fingerprints mean equal data strings, hence equal hashed values. */
  lemma {:induction false} GenerateDeterminesHashedValues(a: Record, b: Record, crypto: Crypto)
    requires CollisionFree(crypto)
    requires Supported(a) && SeparatorFree(a)
    requires Supported(b) && SeparatorFree(b)
    requires Generate(a, crypto) == Generate(b, crypto)
    ensures a.Submission? == b.Submission?
    ensures HashedValues(a) == HashedValues(b)
  {
    DataStringDeterminesHashedValues(a, b);
  }

  /** Records hashing the same values name the same previous hash, up to surrounding whitespace. */
  lemma {:induction false} SameValuesSamePreviousHash(x: Record, y: Record)
    requires Supported(x) && Supported(y) && x.Submission? == y.Submission?
    requires HashedValues(x) == HashedValues(y)
    ensures Trim(PreviousHash(x.chaining)) == Trim(PreviousHash(y.chaining))
  {
    if x.Submission? {
      assert HashedValues(x)[6] == HashedValues(y)[6];
    } else {
      assert HashedValues(x)[3] == HashedValues(y)[3];
    }
  }

  /** A fingerprint is its own trim, so it is stored in the next record exactly as generated. */
  lemma FingerprintIsTrimmed(r: Record, crypto: Crypto)
    requires CanonicalDigests(crypto) && Supported(r)
    ensures Trim(Generate(r, crypto).value) == Generate(r, crypto).value
  {
    var d := crypto.sha256(BuildDataString(r).value);
    assert Generate(r, crypto).value == crypto.base64(d);
  }

  /** One step back along two linked chains: equal fingerprints at k + 1 give equal fingerprints at k. */
  lemma {:induction false} ChainStepBack(a: seq<Record>, b: seq<Record>, crypto: Crypto, k: nat, i: nat)
    requires CollisionFree(crypto) && CanonicalDigests(crypto)
    requires Linked(a, crypto) && Linked(b, crypto)
    requires i == k + 1 && i < |a| && i < |b|
    requires Generate(a[i], crypto) == Generate(b[i], crypto)
    ensures Generate(a[k], crypto) == Generate(b[k], crypto)
  {
    assert LinkedAt(a, k, crypto) && LinkedAt(b, k, crypto);
    RecordStepBack(a[k], b[k], a[i], b[i], crypto);
  }

  /** The same step on four records: each successor names its predecessor's fingerprint. */
  lemma {:induction false} RecordStepBack(x: Record, y: Record, nx: Record, ny: Record, crypto: Crypto)
    requires CollisionFree(crypto) && CanonicalDigests(crypto)
    requires Supported(x) && Supported(y)
    requires Supported(nx) && SeparatorFree(nx) && Supported(ny) && SeparatorFree(ny)
    requires PreviousHash(nx.chaining) == Generate(x, crypto).value
    requires PreviousHash(ny.chaining) == Generate(y, crypto).value
    requires Generate(nx, crypto) == Generate(ny, crypto)
    ensures Generate(x, crypto) == Generate(y, crypto)
  {
    GenerateDeterminesHashedValues(nx, ny, crypto);
    SameValuesSamePreviousHash(nx, ny);
    FingerprintIsTrimmed(x, crypto);
    FingerprintIsTrimmed(y, crypto);
  }

  /** Equal fingerprints at position i give equal fingerprints at every earlier position. */
  lemma {:induction false} ChainAgreesBefore(a: seq<Record>, b: seq<Record>, crypto: Crypto, i: nat, j: nat)
    requires CollisionFree(crypto) && CanonicalDigests(crypto)
    requires Linked(a, crypto) && Linked(b, crypto)
    requires j <= i < |a| && i < |b|
    requires Generate(a[i], crypto) == Generate(b[i], crypto)
    ensures Generate(a[j], crypto) == Generate(b[j], crypto)
    decreases i - j
  {
    if j < i {
      var k := i - 1;
      ChainStepBack(a, b, crypto, k, i);
      ChainAgreesBefore(a, b, crypto, k, j);
    }
  }

  /**
   * Tamper evidence of the chain: when two linked chains have the same fingerprint at position i,
   * every record up to i hashes the same values in both.
   */
  lemma {:induction false} ChainTamperEvident(a: seq<Record>, b: seq<Record>, crypto: Crypto, i: nat)
    requires CollisionFree(crypto) && CanonicalDigests(crypto)
    requires Linked(a, crypto) && Linked(b, crypto)
    requires i < |a| && i < |b|
    requires Generate(a[i], crypto) == Generate(b[i], crypto)
    ensures forall j :: 0 <= j <= i ==> HashedValues(a[j]) == HashedValues(b[j])
  {
    forall j | 0 <= j <= i ensures HashedValues(a[j]) == HashedValues(b[j]) {
      ChainAgreesBefore(a, b, crypto, i, j);
      GenerateDeterminesHashedValues(a[j], b[j], crypto);
    }
  }
}
