/**
 * The IPS payment-QR payload (IpsQrCodeService::createIpsQrString) as its
 * tests fix it: pipe-delimited segments in a fixed order, defaults for the
 * header and the currency, the optional payment-code (SF) and reference (RO)
 * segments, and a failure when a required argument is missing.
 *
 * Decode is not part of the service: it is the reading side of the payload,
 * kept here as the inverse against which the encoder's output is checked.
 */
module IpsQr {

  import opened Strings

  datatype Option<T> = None | Some(value: T)

  /** InvalidArgument stands for the InvalidArgumentException the service throws. */
  datatype EncodeError = InvalidArgument

  datatype Result<T> = Ok(value: T) | Err(error: EncodeError)

  /** The fields of one payment slip, after defaults are applied. */
  datatype Payment = Payment(
    identificationCode: string,
    version: string,
    characterSet: string,
    bankAccountNumber: string,
    payeeName: string,
    payeeCityName: string,
    currencyCode: string,
    amount: string,
    payerName: string,
    paymentCode: Option<string>,
    paymentPurpose: string,
    referenceCode: Option<string>)

  const DefaultIdentificationCode := "PR"
  const DefaultVersion := "01"
  const DefaultCharacterSet := "1"
  const DefaultCurrencyCode := "RSD"

  /** What stands between the payee's name and city inside the N segment: LF CR "BB" LF CR. */
  const PayeeSeparator := "\n\rBB\n\r"

  /** The six arguments the encoder cannot do without. */
  predicate HasRequiredArguments(args: map<string, string>) {
    && "bankAccountNumber" in args && "payeeName" in args && "payeeCityName" in args
    && "amount" in args && "payerName" in args && "paymentPurpose" in args
  }

  function ArgumentOr(args: map<string, string>, key: string, default: string): string {
    if key in args then args[key] else default
  }

  function OptionalArgument(args: map<string, string>, key: string): Option<string> {
    if key in args then Some(args[key]) else None
  }

  /** The argument map read into a payment: every required key present, defaults for the rest. */
  function FromArguments(args: map<string, string>): (r: Result<Payment>)
    ensures r.Ok? <==> HasRequiredArguments(args)
    ensures r.Ok? ==>
      && r.value.bankAccountNumber == args["bankAccountNumber"]
      && r.value.payeeName == args["payeeName"]
      && r.value.payeeCityName == args["payeeCityName"]
      && r.value.amount == args["amount"]
      && r.value.payerName == args["payerName"]
      && r.value.paymentPurpose == args["paymentPurpose"]
    ensures r.Ok? ==>
      && r.value.identificationCode
         == (if "identificationCode" in args then args["identificationCode"] else DefaultIdentificationCode)
      && r.value.version == (if "version" in args then args["version"] else DefaultVersion)
      && r.value.characterSet == (if "characterSet" in args then args["characterSet"] else DefaultCharacterSet)
      && r.value.currencyCode == (if "currencyCode" in args then args["currencyCode"] else DefaultCurrencyCode)
      && (r.value.paymentCode.Some? <==> "paymentCode" in args)
      && ("paymentCode" in args ==> r.value.paymentCode.value == args["paymentCode"])
      && (r.value.referenceCode.Some? <==> "referenceCode" in args)
      && ("referenceCode" in args ==> r.value.referenceCode.value == args["referenceCode"])
  {
    if !HasRequiredArguments(args) then
      Err(InvalidArgument)
    else
      Ok(Payment(
        ArgumentOr(args, "identificationCode", DefaultIdentificationCode),
        ArgumentOr(args, "version", DefaultVersion),
        ArgumentOr(args, "characterSet", DefaultCharacterSet),
        args["bankAccountNumber"],
        args["payeeName"],
        args["payeeCityName"],
        ArgumentOr(args, "currencyCode", DefaultCurrencyCode),
        args["amount"],
        args["payerName"],
        OptionalArgument(args, "paymentCode"),
        args["paymentPurpose"],
        OptionalArgument(args, "referenceCode")))
  }

  /** The SF segment, present only with a payment code. */
  function PaymentCodePart(p: Payment): string {
    if p.paymentCode.Some? then "|SF:" + p.paymentCode.value else ""
  }

  /** The RO segment, present only with a reference code. */
  function ReferenceCodePart(p: Payment): string {
    if p.referenceCode.Some? then "|RO:" + p.referenceCode.value else ""
  }

  /** The payload of one payment: header, payee, then the payment itself. */
  function Render(p: Payment): string {
    HeaderPart(p) + PayeePart(p) + PaymentPart(p)
  }

  /** The K, V, C and R segments. */
  function HeaderPart(p: Payment): string {
    "K:" + p.identificationCode + "|V:" + p.version + "|C:" + p.characterSet + "|R:" + p.bankAccountNumber
  }

  /** The N segment: the payee's name and city. */
  function PayeePart(p: Payment): string {
    "|N:" + p.payeeName + PayeeSeparator + p.payeeCityName
  }

  /** The I, P, optional SF, S and optional RO segments. */
  function PaymentPart(p: Payment): string {
    "|I:" + p.currencyCode + p.amount + "|P:" + p.payerName + PurposePart(p)
  }

  /** The optional SF, the S and the optional RO segments. */
  function PurposePart(p: Payment): string {
    PaymentCodePart(p) + "|S:" + p.paymentPurpose + ReferenceCodePart(p)
  }

  /** `createIpsQrString`: fails on a missing required argument, otherwise renders the payment. */
  function CreateIpsQrString(args: map<string, string>): (r: Result<string>)
    ensures r.Err? <==> !HasRequiredArguments(args)
    ensures r.Ok? ==> FromArguments(args).Ok? && r.value == Render(FromArguments(args).value)
  {
    match FromArguments(args)
    case Err(e) => Err(e)
    case Ok(p) => Ok(Render(p))
  }

  // ---------------------------------------------------------------------
  // Reading a payload back
  // ---------------------------------------------------------------------

  /** The pieces of `s` between the '|' characters (one piece when there is none). */
  function Split(s: string): (parts: seq<string>)
    ensures |parts| >= 1
    decreases |s|
  {
    if s == [] then [[]]
    else
      var rest := Split(s[1..]);
      if s[0] == '|' then [[]] + rest else [[s[0]] + rest[0]] + rest[1..]
  }

  /** The pieces glued back with '|'. */
  function Join(parts: seq<string>): string
    decreases |parts|
  {
    if |parts| == 0 then []
    else if |parts| == 1 then parts[0]
    else parts[0] + "|" + Join(parts[1..])
  }

  function IndexOf(s: string, c: char): (r: Option<nat>)
    ensures r.Some? ==> r.value < |s| && s[r.value] == c && c !in s[..r.value]
    ensures r.None? ==> c !in s
  {
    if s == [] then None
    else if s[0] == c then Some(0)
    else match IndexOf(s[1..], c)
      case None => None
      case Some(i) => Some(i + 1)
  }

  /** The N segment's value split into the payee's name (up to the first LF) and city. */
  function SplitPayee(v: string): Option<(string, string)> {
    match IndexOf(v, '\n')
    case None => None
    case Some(i) =>
      if StartsWith(v[i..], PayeeSeparator) then Some((v[..i], v[i + |PayeeSeparator|..])) else None
  }

  /** The segments of a payload, in their fixed order. */
  function Segments(p: Payment): seq<string> {
    HeaderSegments(p) + [PayeeSegment(p)] + PaymentSegments(p)
  }

  function HeaderSegments(p: Payment): seq<string> {
    ["K:" + p.identificationCode, "V:" + p.version, "C:" + p.characterSet, "R:" + p.bankAccountNumber]
  }

  function PayeeSegment(p: Payment): string {
    "N:" + p.payeeName + PayeeSeparator + p.payeeCityName
  }

  function PaymentSegments(p: Payment): seq<string> {
    ["I:" + p.currencyCode + p.amount, "P:" + p.payerName]
    + (if p.paymentCode.Some? then ["SF:" + p.paymentCode.value] else [])
    + ["S:" + p.paymentPurpose]
    + (if p.referenceCode.Some? then ["RO:" + p.referenceCode.value] else [])
  }

  /** A payload read back into a payment; None when it does not have the layout Render produces. */
  function Decode(s: string): Option<Payment> {
    DecodeSegments(Split(s))
  }

  function DecodeSegments(segs: seq<string>): Option<Payment> {
    if |segs| < 8 then None
    else
      var hasPaymentCode := StartsWith(segs[7], "SF:");
      var purposeAt := if hasPaymentCode then 8 else 7;
      if |segs| <= purposeAt || |segs| > purposeAt + 2 then None
      else
        var hasReference := |segs| == purposeAt + 2;
        if !(&& StartsWith(segs[0], "K:") && StartsWith(segs[1], "V:") && StartsWith(segs[2], "C:")
             && StartsWith(segs[3], "R:") && StartsWith(segs[4], "N:") && StartsWith(segs[5], "I:")
             && StartsWith(segs[6], "P:") && StartsWith(segs[purposeAt], "S:")
             && (hasReference ==> StartsWith(segs[purposeAt + 1], "RO:")))
        then None
        else
          var invoice := segs[5][2..];
          match SplitPayee(segs[4][2..])
          case None => None
          case Some(payee) =>
            if |invoice| < 3 then None
            else Some(Payment(
              segs[0][2..], segs[1][2..], segs[2][2..], segs[3][2..],
              payee.0, payee.1,
              invoice[..3], invoice[3..],
              segs[6][2..],
              if hasPaymentCode then Some(segs[7][3..]) else None,
              segs[purposeAt][2..],
              if hasReference then Some(segs[purposeAt + 1][3..]) else None))
  }

  /** Payments whose payload can be read back: no field holds '|', the payee's
      name holds no line feed, and the currency code has three characters. */
  predicate WellFormed(p: Payment) {
    && '|' !in p.identificationCode && '|' !in p.version && '|' !in p.characterSet
    && '|' !in p.bankAccountNumber && '|' !in p.payeeName && '|' !in p.payeeCityName
    && '|' !in p.currencyCode && '|' !in p.amount && '|' !in p.payerName
    && (p.paymentCode.Some? ==> '|' !in p.paymentCode.value)
    && '|' !in p.paymentPurpose
    && (p.referenceCode.Some? ==> '|' !in p.referenceCode.value)
    && '\n' !in p.payeeName
    && |p.currencyCode| == 3
  }

  // ---------------------------------------------------------------------
  // Splitting and joining
  // ---------------------------------------------------------------------

  lemma {:induction false} SplitPlain(a: string)
    requires '|' !in a
    ensures Split(a) == [a]
    decreases |a|
  {
    if a != [] {
      SplitPlain(a[1..]);
      assert [a[0]] + a[1..] == a;
    }
  }

  lemma {:induction false} SplitCons(a: string, rest: string)
    requires '|' !in a
    ensures Split(a + "|" + rest) == [a] + Split(rest)
    decreases |a|
  {
    var s := a + "|" + rest;
    if a == [] {
      assert s[0] == '|' && s[1..] == rest;
    } else {
      assert s[0] == a[0] && s[1..] == a[1..] + "|" + rest;
      SplitCons(a[1..], rest);
      assert [a[0]] + a[1..] == a;
    }
  }

  lemma {:induction false} JoinCons(x: string, rest: seq<string>)
    requires |rest| >= 1
    ensures Join([x] + rest) == x + "|" + Join(rest)
  {
    assert ([x] + rest)[1..] == rest;
  }

  /** Splitting a join of '|'-free pieces gives the pieces back. */
  lemma {:induction false} SplitJoin(parts: seq<string>)
    requires |parts| >= 1
    requires forall i :: 0 <= i < |parts| ==> '|' !in parts[i]
    ensures Split(Join(parts)) == parts
    decreases |parts|
  {
    if |parts| == 1 {
      SplitPlain(parts[0]);
    } else {
      SplitJoin(parts[1..]);
      SplitCons(parts[0], Join(parts[1..]));
      assert [parts[0]] + parts[1..] == parts;
    }
  }

  lemma {:induction false} JoinAppend(xs: seq<string>, ys: seq<string>)
    requires |xs| >= 1 && |ys| >= 1
    ensures Join(xs + ys) == Join(xs) + "|" + Join(ys)
    decreases |xs|
  {
    if |xs| == 1 {
      JoinCons(xs[0], ys);
      assert xs + ys == [xs[0]] + ys;
    } else {
      JoinAppend(xs[1..], ys);
      assert xs + ys == [xs[0]] + (xs[1..] + ys);
      JoinCons(xs[0], xs[1..] + ys);
      JoinCons(xs[0], xs[1..]);
      assert [xs[0]] + xs[1..] == xs;
    }
  }

  /** Gluing a tagged piece after a '|': the '|' joins the tag. */
  lemma PipeTag(a: string, tag: string, x: string)
    ensures a + "|" + (tag + x) == a + ("|" + tag) + x
  {
  }

  lemma HeaderIsJoin(p: Payment)
    ensures HeaderPart(p) == Join(HeaderSegments(p))
  {
    var k, v, c, r := "K:" + p.identificationCode, "V:" + p.version, "C:" + p.characterSet, "R:" + p.bankAccountNumber;
    JoinCons(c, [r]);
    JoinCons(v, [c, r]);
    JoinCons(k, [v, c, r]);
    assert "|V:" == "|" + "V:" && "|C:" == "|" + "C:" && "|R:" == "|" + "R:";
    calc {
      Join(HeaderSegments(p));
      k + "|" + (v + "|" + (c + "|" + r));
      { PipeTag(c, "R:", p.bankAccountNumber); }
      k + "|" + (v + "|" + (c + "|R:" + p.bankAccountNumber));
      { PipeTag(v, "C:", p.characterSet + "|R:" + p.bankAccountNumber); }
      k + "|" + (v + "|C:" + p.characterSet + "|R:" + p.bankAccountNumber);
      { PipeTag(k, "V:", p.version + "|C:" + p.characterSet + "|R:" + p.bankAccountNumber); }
      HeaderPart(p);
    }
  }

  function PurposeSegments(p: Payment): seq<string> {
    ["S:" + p.paymentPurpose] + (if p.referenceCode.Some? then ["RO:" + p.referenceCode.value] else [])
  }

  function CodeSegments(p: Payment): seq<string> {
    (if p.paymentCode.Some? then ["SF:" + p.paymentCode.value] else []) + PurposeSegments(p)
  }

  lemma PurposeIsJoin(p: Payment)
    ensures Join(PurposeSegments(p)) == "S:" + p.paymentPurpose + ReferenceCodePart(p)
  {
    if p.referenceCode.Some? {
      JoinCons("S:" + p.paymentPurpose, ["RO:" + p.referenceCode.value]);
      assert "|RO:" == "|" + "RO:";
    }
  }

  lemma CodeIsJoin(p: Payment)
    ensures "|" + Join(CodeSegments(p)) == PurposePart(p)
  {
    PurposeIsJoin(p);
    assert "|S:" == "|" + "S:";
    if p.paymentCode.Some? {
      JoinCons("SF:" + p.paymentCode.value, PurposeSegments(p));
      assert "|SF:" == "|" + "SF:";
    }
  }

  lemma PaymentIsJoin(p: Payment)
    ensures PaymentPart(p) == "|" + Join(PaymentSegments(p))
  {
    CodeIsJoin(p);
    assert PaymentSegments(p) == ["I:" + p.currencyCode + p.amount, "P:" + p.payerName] + CodeSegments(p);
    InvoiceJoin(p.currencyCode, p.amount, p.payerName, CodeSegments(p), PurposePart(p));
  }

  /** The I and P segments joined in front of the rest of the payload. */
  lemma InvoiceJoin(currency: string, amount: string, payer: string, mid: seq<string>, rest: string)
    requires |mid| >= 1 && "|" + Join(mid) == rest
    ensures "|" + Join(["I:" + currency + amount, "P:" + payer] + mid)
         == "|I:" + currency + amount + "|P:" + payer + rest
  {
    var i, pp := "I:" + currency + amount, "P:" + payer;
    JoinCons(pp, mid);
    JoinCons(i, [pp] + mid);
    assert [i, pp] + mid == [i] + ([pp] + mid);
    InvoiceGlue(currency, amount, payer, Join(mid), rest);
  }

  lemma InvoiceGlue(currency: string, amount: string, payer: string, joined: string, rest: string)
    requires "|" + joined == rest
    ensures "|" + (("I:" + currency + amount) + "|" + (("P:" + payer) + "|" + joined))
         == "|I:" + currency + amount + "|P:" + payer + rest
  {
    assert "|I:" == "|" + "I:" && "|P:" == "|" + "P:";
  }

  lemma RenderIsJoin(p: Payment)
    ensures Render(p) == Join(Segments(p))
  {
    HeaderIsJoin(p);
    PaymentIsJoin(p);
    var n, ps := PayeeSegment(p), PaymentSegments(p);
    JoinCons(n, ps);
    JoinAppend(HeaderSegments(p), [n] + ps);
    assert Segments(p) == HeaderSegments(p) + ([n] + ps);
    assert PayeePart(p) == "|" + n;
  }

  lemma {:induction false} IndexOfAfter(a: string, c: char, rest: string)
    requires c !in a
    ensures IndexOf(a + [c] + rest, c) == Some(|a|)
    decreases |a|
  {
    var s := a + [c] + rest;
    if a != [] {
      assert s[1..] == a[1..] + [c] + rest;
      IndexOfAfter(a[1..], c, rest);
    }
  }

  lemma SplitPayeeOf(name: string, city: string)
    requires '\n' !in name
    ensures SplitPayee(name + PayeeSeparator + city) == Some((name, city))
  {
    var v := name + PayeeSeparator + city;
    assert v == name + ['\n'] + ("\rBB\n\r" + city);
    IndexOfAfter(name, '\n', "\rBB\n\r" + city);
    assert v[|name|..] == PayeeSeparator + city;
    assert v[..|name|] == name;
    assert v[|name| + |PayeeSeparator|..] == city;
  }

  lemma TagRest(tag: string, x: string)
    ensures StartsWith(tag + x, tag) && (tag + x)[|tag|..] == x
  {
    assert (tag + x)[..|tag|] == tag;
  }

  // ---------------------------------------------------------------------
  // Properties of the encoder
  // ---------------------------------------------------------------------

  /** Reading the payload of a well-formed payment gives the payment back:
      segment order, the N and I segments and the optional SF and RO segments
      all determine the fields. */
  lemma DecodeRender(p: Payment)
    requires WellFormed(p)
    ensures Decode(Render(p)) == Some(p)
  {
    SplitRender(p);
    DecodeSegmentsOf(p);
  }

  /** The payload of a well-formed payment splits into its segments. */
  lemma SplitRender(p: Payment)
    requires WellFormed(p)
    ensures Split(Render(p)) == Segments(p)
  {
    var segs := Segments(p);
    RenderIsJoin(p);
    SegmentsAt(p);
    assert forall i :: 0 <= i < |segs| ==> '|' !in segs[i];
    SplitJoin(segs);
  }

  /** Where each segment sits. */
  lemma SegmentsAt(p: Payment)
    ensures var segs, purposeAt := Segments(p), if p.paymentCode.Some? then 8 else 7;
      && |segs| == purposeAt + (if p.referenceCode.Some? then 2 else 1)
      && segs[0] == "K:" + p.identificationCode && segs[1] == "V:" + p.version
      && segs[2] == "C:" + p.characterSet && segs[3] == "R:" + p.bankAccountNumber
      && segs[4] == PayeeSegment(p)
      && segs[5] == "I:" + p.currencyCode + p.amount && segs[6] == "P:" + p.payerName
      && segs[purposeAt] == "S:" + p.paymentPurpose
      && (p.paymentCode.Some? ==> segs[7] == "SF:" + p.paymentCode.value)
      && (p.referenceCode.Some? ==> segs[purposeAt + 1] == "RO:" + p.referenceCode.value)
  {
  }

  /** The segments of a well-formed payment read back into it. */
  lemma DecodeSegmentsOf(p: Payment)
    requires WellFormed(p)
    ensures DecodeSegments(Segments(p)) == Some(p)
  {
    SegmentsAt(p);
    SegmentTags(p);
    SegmentValues(p);
  }

  /** Every segment carries its tag, and only a payment code gives segment 7 the SF tag. */
  lemma SegmentTags(p: Payment)
    ensures var segs, purposeAt := Segments(p), if p.paymentCode.Some? then 8 else 7;
      && StartsWith(segs[0], "K:") && StartsWith(segs[1], "V:") && StartsWith(segs[2], "C:")
      && StartsWith(segs[3], "R:") && StartsWith(segs[4], "N:") && StartsWith(segs[5], "I:")
      && StartsWith(segs[6], "P:") && StartsWith(segs[purposeAt], "S:")
      && (p.referenceCode.Some? ==> StartsWith(segs[purposeAt + 1], "RO:"))
      && (StartsWith(segs[7], "SF:") <==> p.paymentCode.Some?)
  {
    var segs := Segments(p);
    SegmentsAt(p);
    TagRest("K:", p.identificationCode);
    TagRest("V:", p.version);
    TagRest("C:", p.characterSet);
    TagRest("R:", p.bankAccountNumber);
    TagRest("N:", p.payeeName + PayeeSeparator + p.payeeCityName);
    assert segs[4] == "N:" + (p.payeeName + PayeeSeparator + p.payeeCityName);
    TagRest("I:", p.currencyCode + p.amount);
    assert segs[5] == "I:" + (p.currencyCode + p.amount);
    TagRest("P:", p.payerName);
    TagRest("S:", p.paymentPurpose);
    if p.paymentCode.Some? {
      TagRest("SF:", p.paymentCode.value);
    } else {
      assert segs[7][1] == ':';
    }
    if p.referenceCode.Some? {
      TagRest("RO:", p.referenceCode.value);
    }
  }

  /** What follows each tag is the field it carries. */
  lemma SegmentValues(p: Payment)
    requires WellFormed(p)
    ensures var segs, purposeAt := Segments(p), if p.paymentCode.Some? then 8 else 7;
      && segs[0][2..] == p.identificationCode && segs[1][2..] == p.version
      && segs[2][2..] == p.characterSet && segs[3][2..] == p.bankAccountNumber
      && SplitPayee(segs[4][2..]) == Some((p.payeeName, p.payeeCityName))
      && |segs[5][2..]| >= 3
      && segs[5][2..][..3] == p.currencyCode && segs[5][2..][3..] == p.amount
      && segs[6][2..] == p.payerName && segs[purposeAt][2..] == p.paymentPurpose
      && (p.paymentCode.Some? ==> segs[7][3..] == p.paymentCode.value)
      && (p.referenceCode.Some? ==> segs[purposeAt + 1][3..] == p.referenceCode.value)
  {
    var segs := Segments(p);
    SegmentsAt(p);
    TagRest("K:", p.identificationCode);
    TagRest("V:", p.version);
    TagRest("C:", p.characterSet);
    TagRest("R:", p.bankAccountNumber);
    TagRest("N:", p.payeeName + PayeeSeparator + p.payeeCityName);
    assert segs[4] == "N:" + (p.payeeName + PayeeSeparator + p.payeeCityName);
    SplitPayeeOf(p.payeeName, p.payeeCityName);
    var invoice := p.currencyCode + p.amount;
    TagRest("I:", invoice);
    assert segs[5] == "I:" + invoice;
    assert invoice[..3] == p.currencyCode && invoice[3..] == p.amount;
    TagRest("P:", p.payerName);
    TagRest("S:", p.paymentPurpose);
    if p.paymentCode.Some? {
      TagRest("SF:", p.paymentCode.value);
    }
    if p.referenceCode.Some? {
      TagRest("RO:", p.referenceCode.value);
    }
  }

  /** With every required argument present the encoder never fails, and the
      argument map can be read back from its output. */
  lemma CreateIpsQrStringDecodes(args: map<string, string>)
    requires HasRequiredArguments(args)
    requires WellFormed(FromArguments(args).value)
    ensures CreateIpsQrString(args).Ok?
    ensures Decode(CreateIpsQrString(args).value) == Some(FromArguments(args).value)
    ensures var p := Decode(CreateIpsQrString(args).value).value;
      && p.bankAccountNumber == args["bankAccountNumber"]
      && p.payeeName == args["payeeName"] && p.payeeCityName == args["payeeCityName"]
      && p.amount == args["amount"] && p.payerName == args["payerName"]
      && p.paymentPurpose == args["paymentPurpose"]
      && (p.paymentCode.Some? <==> "paymentCode" in args)
      && (p.referenceCode.Some? <==> "referenceCode" in args)
  {
    DecodeRender(FromArguments(args).value);
  }

  /** Passing identification code PR, version 01 and character set 1 explicitly
      gives the same payload as leaving them to their defaults. */
  lemma ExplicitDefaultsSameAsOmitted(args: map<string, string>)
    requires "identificationCode" !in args && "version" !in args && "characterSet" !in args
    ensures CreateIpsQrString(args["identificationCode" := "PR"]["version" := "01"]["characterSet" := "1"])
         == CreateIpsQrString(args)
  {
    var full := args["identificationCode" := "PR"]["version" := "01"]["characterSet" := "1"];
    if HasRequiredArguments(args) {
      assert FromArguments(full) == FromArguments(args);
    }
  }

  /** A payment code puts `|SF:<code>` between the P and the S segments and changes nothing else. */
  lemma PaymentCodeInsertsSegment(args: map<string, string>, code: string)
    requires HasRequiredArguments(args) && "paymentCode" !in args
    ensures var p := FromArguments(args).value;
      var tail := "|S:" + args["paymentPurpose"] + ReferenceCodePart(p);
      && CreateIpsQrString(args) == Ok(InvoicePrefix(p) + tail)
      && CreateIpsQrString(args["paymentCode" := code]) == Ok(InvoicePrefix(p) + "|SF:" + code + tail)
  {
    var p := FromArguments(args).value;
    PaymentCodeArgument(args, code);
    RenderWithPaymentCode(p, code);
  }

  lemma PaymentCodeArgument(args: map<string, string>, code: string)
    requires HasRequiredArguments(args) && "paymentCode" !in args
    ensures FromArguments(args["paymentCode" := code]) == Ok(FromArguments(args).value.(paymentCode := Some(code)))
  {
  }

  lemma RenderWithPaymentCode(p: Payment, code: string)
    requires p.paymentCode.None?
    ensures var tail := "|S:" + p.paymentPurpose + ReferenceCodePart(p);
      && Render(p) == InvoicePrefix(p) + tail
      && Render(p.(paymentCode := Some(code))) == InvoicePrefix(p) + "|SF:" + code + tail
  {
    var q := p.(paymentCode := Some(code));
    var pre, tail := InvoicePrefix(p), "|S:" + p.paymentPurpose + ReferenceCodePart(p);
    assert InvoicePrefix(q) == pre;
    RenderAroundPurpose(p);
    RenderAroundPurpose(q);
    PurposeWithPaymentCode(p, code);
    InsertAfter(pre, "|SF:" + code, tail);
  }

  lemma PurposeWithPaymentCode(p: Payment, code: string)
    requires p.paymentCode.None?
    ensures var tail := "|S:" + p.paymentPurpose + ReferenceCodePart(p);
      && PurposePart(p) == tail
      && PurposePart(p.(paymentCode := Some(code))) == "|SF:" + code + tail
  {
  }

  lemma InsertAfter(pre: string, piece: string, tail: string)
    ensures pre + (piece + tail) == pre + piece + tail
  {
  }

  /** Everything before the optional SF segment. */
  function InvoicePrefix(p: Payment): string {
    HeaderPart(p) + PayeePart(p) + ("|I:" + p.currencyCode + p.amount + "|P:" + p.payerName)
  }

  lemma RenderAroundPurpose(p: Payment)
    ensures Render(p) == InvoicePrefix(p) + PurposePart(p)
  {
  }

  /** A reference code appends `|RO:<code>` after the S segment, at the very end. */
  lemma ReferenceCodeAppendsSegment(args: map<string, string>, code: string)
    requires HasRequiredArguments(args) && "referenceCode" !in args
    ensures CreateIpsQrString(args["referenceCode" := code]).value
         == CreateIpsQrString(args).value + "|RO:" + code
  {
    var with := args["referenceCode" := code];
    var p := FromArguments(args).value;
    assert FromArguments(with).value == p.(referenceCode := Some(code));
  }

  // ---------------------------------------------------------------------
  // The four cases of the service's tests
  // ---------------------------------------------------------------------

  /** An empty argument map is refused. */
  lemma EmptyArgumentsRefused()
    ensures CreateIpsQrString(map[]) == Err(InvalidArgument)
  {

  }

  // The test payloads are longer than the solver unfolds string literals in
  // one go, so each is assembled from the literal pieces below.

  lemma TestHeader(p: Payment)
    requires p.identificationCode == "PR" && p.version == "01" && p.characterSet == "1"
    requires p.bankAccountNumber == "123456789012345611"
    ensures HeaderPart(p) == "K:PR|V:01|C:1|R:123456789012345611"
  {
  }

  lemma TestPayee(p: Payment)
    requires p.payeeName == "JEST Ltd., Test" && p.payeeCityName == "Beograd"
    ensures PayeePart(p) == "|N:JEST Ltd., Test\n\rBB\n\rBeograd"
  {
  }

  lemma TestInvoice(p: Payment)
    requires p.currencyCode == "RSD" && p.amount == "1295," && p.payerName == "Test Payer"
    ensures "|I:" + p.currencyCode + p.amount + "|P:" + p.payerName == "|I:RSD1295,|P:Test Payer"
  {
  }

  lemma RenderOfPieces(p: Payment, header: string, payee: string, invoice: string, purpose: string)
    requires HeaderPart(p) == header && PayeePart(p) == payee && PurposePart(p) == purpose
    requires "|I:" + p.currencyCode + p.amount + "|P:" + p.payerName == invoice
    ensures Render(p) == header + payee + invoice + purpose
  {
  }

  lemma DefaultHeader(account: string)
    ensures "K:" + DefaultIdentificationCode + "|V:" + DefaultVersion + "|C:" + DefaultCharacterSet + "|R:" + account
         == "K:PR|V:01|C:1|R:" + account
  {
  }

  lemma DefaultPayment(amount: string, payer: string, purpose: string)
    ensures "|I:" + DefaultCurrencyCode + amount + "|P:" + payer + ("" + "|S:" + purpose + "")
         == "|I:RSD" + amount + "|P:" + payer + "|S:" + purpose
  {
  }

  /**
   * Any map with the six required arguments and none of the optional ones:
   * the header takes PR, 01 and 1, the amount is prefixed with RSD, and
   * neither an SF nor an RO segment appears.
   */
  lemma DefaultsApplied(args: map<string, string>)
    requires HasRequiredArguments(args)
    requires "identificationCode" !in args && "version" !in args && "characterSet" !in args
    requires "currencyCode" !in args && "paymentCode" !in args && "referenceCode" !in args
    ensures CreateIpsQrString(args)
         == Ok(("K:PR|V:01|C:1|R:" + args["bankAccountNumber"])
               + ("|N:" + args["payeeName"] + "\n\rBB\n\r" + args["payeeCityName"])
               + ("|I:RSD" + args["amount"] + "|P:" + args["payerName"] + "|S:" + args["paymentPurpose"]))
  {
    var p := FromArguments(args).value;
    DefaultHeader(p.bankAccountNumber);
    DefaultPayment(p.amount, p.payerName, p.paymentPurpose);
  }

  /** The payment every test builds, up to its SF, S and RO values. */
  function TestPayment(paymentCode: Option<string>, purpose: string, referenceCode: Option<string>): Payment {
    Payment("PR", "01", "1", "123456789012345611", "JEST Ltd., Test", "Beograd",
            "RSD", "1295,", "Test Payer", paymentCode, purpose, referenceCode)
  }

  lemma TestRender(paymentCode: Option<string>, purpose: string, referenceCode: Option<string>, tail: string)
    requires PurposePart(TestPayment(paymentCode, purpose, referenceCode)) == tail
    ensures Render(TestPayment(paymentCode, purpose, referenceCode))
         == "K:PR|V:01|C:1|R:123456789012345611" + "|N:JEST Ltd., Test\n\rBB\n\rBeograd"
            + "|I:RSD1295,|P:Test Payer" + tail
  {
    var p := TestPayment(paymentCode, purpose, referenceCode);
    TestHeader(p);
    TestPayee(p);
    TestInvoice(p);
    RenderOfPieces(p, "K:PR|V:01|C:1|R:123456789012345611", "|N:JEST Ltd., Test\n\rBB\n\rBeograd",
                   "|I:RSD1295,|P:Test Payer", tail);
  }

  lemma RequiredArgumentsRead()
    ensures FromArguments(map[
      "bankAccountNumber" := "123456789012345611",
      "payeeName" := "JEST Ltd., Test",
      "payeeCityName" := "Beograd",
      "amount" := "1295,",
      "payerName" := "Test Payer",
      "paymentPurpose" := "Test Purpose"])
      == Ok(TestPayment(None, "Test Purpose", None))
  {
  }

  /** Only the six required arguments: the defaults fill the header and the currency. */
  lemma RequiredArgumentsAndDefaults()
    ensures CreateIpsQrString(map[
      "bankAccountNumber" := "123456789012345611",
      "payeeName" := "JEST Ltd., Test",
      "payeeCityName" := "Beograd",
      "amount" := "1295,",
      "payerName" := "Test Payer",
      "paymentPurpose" := "Test Purpose"])
      == Ok("K:PR|V:01|C:1|R:123456789012345611"
          + "|N:JEST Ltd., Test\n\rBB\n\rBeograd"
          + "|I:RSD1295,|P:Test Payer" + "|S:Test Purpose")
  {
    RequiredArgumentsRead();
    assert PurposePart(TestPayment(None, "Test Purpose", None)) == "|S:Test Purpose";
    TestRender(None, "Test Purpose", None, "|S:Test Purpose");
  }

  lemma AllArgumentsRead()
    ensures FromArguments(map[
      "identificationCode" := "PR",
      "version" := "01",
      "characterSet" := "1",
      "bankAccountNumber" := "123456789012345611",
      "payeeName" := "JEST Ltd., Test",
      "amount" := "1295,",
      "payerName" := "Test Payer",
      "payeeCityName" := "Beograd",
      "paymentCode" := "123",
      "paymentPurpose" := "Testing"])
      == Ok(TestPayment(Some("123"), "Testing", None))
  {
  }

  /** All arguments, in the test's key order, with a payment code. */
  lemma AllArgumentsProvided()
    ensures CreateIpsQrString(map[
      "identificationCode" := "PR",
      "version" := "01",
      "characterSet" := "1",
      "bankAccountNumber" := "123456789012345611",
      "payeeName" := "JEST Ltd., Test",
      "amount" := "1295,",
      "payerName" := "Test Payer",
      "payeeCityName" := "Beograd",
      "paymentCode" := "123",
      "paymentPurpose" := "Testing"])
      == Ok("K:PR|V:01|C:1|R:123456789012345611"
          + "|N:JEST Ltd., Test\n\rBB\n\rBeograd"
          + "|I:RSD1295,|P:Test Payer" + "|SF:123|S:Testing")
  {
    AllArgumentsRead();
    assert PurposePart(TestPayment(Some("123"), "Testing", None)) == "|SF:123|S:Testing";
    TestRender(Some("123"), "Testing", None, "|SF:123|S:Testing");
  }

  lemma ReferenceCodeArgumentsRead()
    ensures FromArguments(map[
      "bankAccountNumber" := "123456789012345611",
      "payeeName" := "JEST Ltd., Test",
      "amount" := "1295,",
      "payerName" := "Test Payer",
      "payeeCityName" := "Beograd",
      "paymentPurpose" := "Test Purpose",
      "referenceCode" := "972012345"])
      == Ok(TestPayment(None, "Test Purpose", Some("972012345")))
  {
  }

  /** A reference code ends the payload. */
  lemma WithReferenceCode()
    ensures CreateIpsQrString(map[
      "bankAccountNumber" := "123456789012345611",
      "payeeName" := "JEST Ltd., Test",
      "amount" := "1295,",
      "payerName" := "Test Payer",
      "payeeCityName" := "Beograd",
      "paymentPurpose" := "Test Purpose",
      "referenceCode" := "972012345"])
      == Ok("K:PR|V:01|C:1|R:123456789012345611"
          + "|N:JEST Ltd., Test\n\rBB\n\rBeograd"
          + "|I:RSD1295,|P:Test Payer" + "|S:Test Purpose|RO:972012345")
  {
    ReferenceCodeArgumentsRead();
    assert PurposePart(TestPayment(None, "Test Purpose", Some("972012345"))) == "|S:Test Purpose|RO:972012345";
    TestRender(None, "Test Purpose", Some("972012345"), "|S:Test Purpose|RO:972012345");
  }

}
