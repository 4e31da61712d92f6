/** The text of a Redis admission, `gift|state[|order|run]`, and its two readers: the Go parser and
    the patterns of the Lua scripts. */
module AdmissionCodec {
  import opened Common
  import opened AdmissionScripts

  // ---------------------------------------------------------------- decimal numbers

  const MIN_INT := -0x8000_0000_0000_0000
  const MAX_INT := 0x7fff_ffff_ffff_ffff

  predicate IsDigit(c: char) {
    '0' <= c <= '9'
  }

  function Digit(n: nat): char
    requires n < 10
  {
    '0' + n as char
  }

  function DigitValue(c: char): nat
    requires IsDigit(c)
  {
    (c - '0') as nat
  }

  function Digits(n: nat): string {
    if n < 10 then [Digit(n)] else Digits(n / 10) + [Digit(n % 10)]
  }

  /** What the scripts and the client write for an integer. */
  function Itoa(n: int): string {
    if n < 0 then "-" + Digits(-n) else Digits(n)
  }

  predicate AllDigits(s: string) {
    forall i :: 0 <= i < |s| ==> IsDigit(s[i])
  }

  function Value(s: string): nat
    requires AllDigits(s)
  {
    if s == "" then 0 else 10 * Value(s[..|s| - 1]) + DigitValue(s[|s| - 1])
  }

  /** strconv.Atoi: an optional sign, at least one digit, within 64 bits. */
  function Atoi(s: string): Option<int> {
    var signed := s != "" && (s[0] == '-' || s[0] == '+');
    var digits := if signed then s[1..] else s;
    if digits == "" || !AllDigits(digits) then None
    else
      var magnitude: int := Value(digits);
      var n := if signed && s[0] == '-' then -magnitude else magnitude;
      if MIN_INT <= n <= MAX_INT then Some(n) else None
  }

  lemma {:induction false} DigitsAreDigits(n: nat)
    ensures Digits(n) != "" && AllDigits(Digits(n)) && Value(Digits(n)) == n
  {
    if n < 10 {
      assert Digits(n)[..0] == "";
    } else {
      DigitsAreDigits(n / 10);
      assert Digits(n)[..|Digits(n)| - 1] == Digits(n / 10);
    }
  }

  lemma AtoiOfDigits(s: string)
    requires s != "" && AllDigits(s) && Value(s) <= MAX_INT
    ensures Atoi(s) == Some(Value(s))
  {
    assert IsDigit(s[0]);
  }

  lemma AtoiOfMinus(s: string)
    requires s != "" && AllDigits(s) && MIN_INT <= 0 - Value(s)
    ensures Atoi("-" + s) == Some(0 - Value(s))
  {
    assert ("-" + s)[1..] == s;
  }

  lemma AtoiInvertsItoa(n: int)
    requires MIN_INT <= n <= MAX_INT
    ensures Atoi(Itoa(n)) == Some(n)
  {
    if n < 0 {
      DigitsAreDigits(-n);
      AtoiOfMinus(Digits(-n));
    } else {
      DigitsAreDigits(n);
      AtoiOfDigits(Digits(n));
    }
  }

  lemma ItoaHasNoBar(n: int)
    ensures NoBar(Itoa(n)) && Itoa(n) != ""
  {
    DigitsAreDigits(if n < 0 then -n else n);
  }

  lemma ItoaIsInjective(m: int, n: int)
    requires Itoa(m) == Itoa(n)
    ensures m == n
  {
    DigitsAreDigits(if m < 0 then -m else m);
    DigitsAreDigits(if n < 0 then -n else n);
    assert m < 0 ==> Itoa(m)[0] == '-' && Itoa(m)[1..] == Digits(-m);
    assert n < 0 ==> Itoa(n)[0] == '-' && Itoa(n)[1..] == Digits(-n);
    assert m >= 0 ==> IsDigit(Itoa(m)[0]);
    assert n >= 0 ==> IsDigit(Itoa(n)[0]);
  }

  // ---------------------------------------------------------------- fields

  predicate NoBar(s: string) {
    '|' !in s
  }

  function Split(s: string): (parts: seq<string>)
    ensures parts != []
  {
    if s == "" then [""]
    else
      var rest := Split(s[1..]);
      if s[0] == '|' then [""] + rest else [[s[0]] + rest[0]] + rest[1..]
  }

  function Join(parts: seq<string>): string
    requires parts != []
  {
    if |parts| == 1 then parts[0] else parts[0] + "|" + Join(parts[1..])
  }

  lemma {:induction false} JoinInvertsSplit(s: string)
    ensures Join(Split(s)) == s
    ensures forall i :: 0 <= i < |Split(s)| ==> NoBar(Split(s)[i])
  {
    if s == "" {
    } else {
      JoinInvertsSplit(s[1..]);
      var rest := Split(s[1..]);
      if s[0] == '|' {
        assert ([""] + rest)[1..] == rest;
      } else {
        var parts := [[s[0]] + rest[0]] + rest[1..];
        assert parts[1..] == rest[1..];
        assert s == [s[0]] + s[1..];
      }
    }
  }

  lemma {:induction false} SplitFirst(a: string, rest: string)
    requires NoBar(a)
    ensures Split(a + "|" + rest) == [a] + Split(rest)
    decreases |a|
  {
    var s := a + "|" + rest;
    if a == "" {
      assert s[1..] == rest;
    } else {
      SplitFirst(a[1..], rest);
      assert s[1..] == a[1..] + "|" + rest;
      assert [a[0]] + a[1..] == a;
    }
  }

  lemma {:induction false} SplitWhole(a: string)
    requires NoBar(a)
    ensures Split(a) == [a]
  {
    if a == "" {
    } else {
      SplitWhole(a[1..]);
      assert [a[0]] + a[1..] == a;
    }
  }

  lemma {:induction false} SplitInvertsJoin(parts: seq<string>)
    requires parts != [] && forall i :: 0 <= i < |parts| ==> NoBar(parts[i])
    ensures Split(Join(parts)) == parts
  {
    if |parts| == 1 {
      SplitWhole(parts[0]);
    } else {
      SplitInvertsJoin(parts[1..]);
      SplitFirst(parts[0], Join(parts[1..]));
    }
  }

  // ---------------------------------------------------------------- the value

  function StateName(s: Status): string {
    match s
    case StockAcquired => "stock_acquired"
    case PendingPayment => "pending_payment"
    case Paid => "paid"
    case Cancelled => "cancelled"
  }

  function StateOf(name: string): Option<Status> {
    if name == "stock_acquired" then Some(StockAcquired)
    else if name == "pending_payment" then Some(PendingPayment)
    else if name == "paid" then Some(Paid)
    else if name == "cancelled" then Some(Cancelled)
    else None
  }

  predicate Clean(s: string) {
    '|' !in s && ' ' !in s && '\t' !in s && '\n' !in s
  }

  /** A complete identity: two 32-character parts without separators. */
  predicate ValidIdentity(id: Identity) {
    |id.order| == 32 && |id.run| == 32 && Clean(id.order + id.run)
  }

  predicate Storable(a: Admission) {
    MIN_INT <= a.gift <= MAX_INT && (a.id == ANONYMOUS || ValidIdentity(a.id))
  }

  function Fields(a: Admission): seq<string> {
    [Itoa(a.gift), StateName(a.state)] + if a.id.order != "" then [a.id.order, a.id.run] else []
  }

  /** What every script writes. */
  function Encode(a: Admission): string {
    Join(Fields(a))
  }

  /** parseAdmission; a value without any bar is the old format, pending payment. */
  function Parse(raw: string): Option<Admission> {
    var parts := Split(raw);
    var gift := Atoi(parts[0]);
    var state := if |parts| >= 2 then StateOf(parts[1]) else Some(PendingPayment);
    if gift.None? || state.None? then None
    else if |parts| == 4 then
      var id := Identity(parts[2], parts[3]);
      if ValidIdentity(id) then Some(Admission(gift.value, state.value, id)) else None
    else if |parts| == 1 || |parts| == 2 then Some(Admission(gift.value, state.value, ANONYMOUS))
    else None
  }

  /** The Lua patterns: four or two non-empty fields, else the whole text is taken as an old-format
      gift.  The scripts compare the gift as text. */
  datatype LuaView = LuaView(gift: string, state: string, id: Identity)

  predicate NonEmpty(parts: seq<string>) {
    forall i :: 0 <= i < |parts| ==> parts[i] != ""
  }

  function LuaRead(raw: string): LuaView {
    var parts := Split(raw);
    if |parts| == 4 && NonEmpty(parts) then LuaView(parts[0], parts[1], Identity(parts[2], parts[3]))
    else if |parts| == 2 && NonEmpty(parts) then LuaView(parts[0], parts[1], ANONYMOUS)
    else LuaView(raw, "pending_payment", ANONYMOUS)
  }

  /** The pattern ^([^|]+)|([^|]+)|([^|]+)|([^|]+)$ itself. */
  predicate MatchesFour(raw: string, a: string, b: string, c: string, d: string) {
    && a != "" && b != "" && c != "" && d != ""
    && NoBar(a) && NoBar(b) && NoBar(c) && NoBar(d)
    && raw == a + "|" + b + "|" + c + "|" + d
  }

  predicate MatchesTwo(raw: string, a: string, b: string) {
    a != "" && b != "" && NoBar(a) && NoBar(b) && raw == a + "|" + b
  }

  /** The scripts' guard on the stored text, before they look at the run. */
  predicate LuaAddresses(raw: string, gid: int, id: Identity) {
    LuaRead(raw).gift == Itoa(gid) && LuaRead(raw).id == id
  }

  // ---------------------------------------------------------------- the reader is the pattern

  lemma FourFields(a: string, b: string, c: string, d: string)
    ensures Join([a, b, c, d]) == a + "|" + b + "|" + c + "|" + d
  {
    assert [a, b, c, d][1..] == [b, c, d] && [b, c, d][1..] == [c, d] && [c, d][1..] == [d];
    assert Join([c, d]) == c + "|" + d;
    assert Join([b, c, d]) == b + "|" + (c + "|" + d);
    assert a + "|" + (b + "|" + (c + "|" + d)) == a + "|" + b + "|" + c + "|" + d;
  }

  lemma TwoFields(a: string, b: string)
    ensures Join([a, b]) == a + "|" + b
  {
    assert [a, b][1..] == [b];
  }

  /** Splitting and testing for four non-empty fields is what the first pattern does. */
  lemma LuaReadIsThePattern(raw: string, a: string, b: string, c: string, d: string)
    ensures MatchesFour(raw, a, b, c, d) <==> Split(raw) == [a, b, c, d] && NonEmpty(Split(raw))
    ensures MatchesTwo(raw, a, b) <==> Split(raw) == [a, b] && NonEmpty(Split(raw))
  {
    FourFields(a, b, c, d);
    TwoFields(a, b);
    JoinInvertsSplit(raw);
    if MatchesFour(raw, a, b, c, d) {
      SplitInvertsJoin([a, b, c, d]);
    } else if Split(raw) == [a, b, c, d] {
      assert Split(raw)[0] == a && Split(raw)[1] == b && Split(raw)[2] == c && Split(raw)[3] == d;
    }
    if MatchesTwo(raw, a, b) {
      SplitInvertsJoin([a, b]);
    } else if Split(raw) == [a, b] {
      assert Split(raw)[0] == a && Split(raw)[1] == b;
    }
  }

  // ---------------------------------------------------------------- round trips

  lemma FieldsHaveNoBar(a: Admission)
    requires Storable(a)
    ensures forall i :: 0 <= i < |Fields(a)| ==> NoBar(Fields(a)[i])
    ensures NonEmpty(Fields(a))
  {
    ItoaHasNoBar(a.gift);
    assert NoBar(StateName(a.state));
    if a.id.order != "" {
      assert NoBar(a.id.order) by {
        assert forall c :: c in a.id.order ==> c in a.id.order + a.id.run;
      }
      assert NoBar(a.id.run) by {
        assert forall c :: c in a.id.run ==> c in a.id.order + a.id.run;
      }
    }
  }

  lemma FieldsOfFour(a: Admission)
    requires a.id.order != ""
    ensures Fields(a) == [Itoa(a.gift), StateName(a.state), a.id.order, a.id.run]
  {
  }

  lemma StoredFields(a: Admission)
    requires Storable(a)
    ensures Split(Encode(a)) == Fields(a) && NonEmpty(Fields(a))
  {
    FieldsHaveNoBar(a);
    SplitInvertsJoin(Fields(a));
    ItoaHasNoBar(a.gift);
    if a.id.order != "" {
      FieldsOfFour(a);
    }
  }

  lemma StateNameParses(s: Status)
    ensures StateOf(StateName(s)) == Some(s)
  {
  }

  /** The Go reader inverts what the scripts write, and the Lua patterns extract the same fields. */
  lemma BothReadersInvertEncode(a: Admission)
    requires Storable(a)
    ensures Parse(Encode(a)) == Some(a)
    ensures LuaRead(Encode(a)) == LuaView(Itoa(a.gift), StateName(a.state), a.id)
  {
    StoredFields(a);
    AtoiInvertsItoa(a.gift);
    StateNameParses(a.state);
    if a.id.order != "" {
      FieldsOfFour(a);
    }
  }

  /** So on stored values the scripts' textual guard is the model's guard. */
  lemma TextGuardIsMatch(a: Admission, gid: int, id: Identity)
    requires Storable(a)
    ensures LuaAddresses(Encode(a), gid, id) <==> a.gift == gid && a.id == id
  {
    BothReadersInvertEncode(a);
    if Itoa(a.gift) == Itoa(gid) {
      ItoaIsInjective(a.gift, gid);
    }
  }

  // ---------------------------------------------------------------- what is rejected

  predicate Malformed(parts: seq<string>) {
    |parts| == 3 || |parts| > 4 || !NonEmpty(parts)
  }

  lemma MalformedIsNotParsed(raw: string)
    requires Malformed(Split(raw))
    ensures Parse(raw) == None
  {
    assert StateOf("") == None && Atoi("") == None;
  }

  /** Without a match the scripts take the whole text for the gift. */
  lemma MalformedIsNotAddressed(raw: string, gid: int, id: Identity)
    requires Malformed(Split(raw))
    ensures !LuaAddresses(raw, gid, id)
  {
    var parts := Split(raw);
    JoinInvertsSplit(raw);
    ItoaHasNoBar(gid);
    if |parts| == 1 {
      assert parts == [""] && raw == "";
    } else {
      assert raw == parts[0] + "|" + Join(parts[1..]);
      assert '|' in raw;
    }
  }

  /** Three fields, more than four, or an empty field: the Go reader fails and no script addresses
      the value, whatever gift and identity it is called with. */
  lemma MalformedIsRejected(raw: string, gid: int, id: Identity)
    requires Malformed(Split(raw))
    ensures Parse(raw) == None
    ensures !LuaAddresses(raw, gid, id)
  {
    MalformedIsNotParsed(raw);
    MalformedIsNotAddressed(raw, gid, id);
  }

  predicate Written(raw: string, a: Admission) {
    raw == Encode(a) || (raw == Itoa(a.gift) && a.state == PendingPayment && a.id == ANONYMOUS)
  }

  lemma WrittenIsAddressed(raw: string)
    requires Parse(raw).Some? && Written(raw, Parse(raw).value)
    ensures LuaAddresses(raw, Parse(raw).value.gift, Parse(raw).value.id)
  {
    var a := Parse(raw).value;
    ItoaHasNoBar(a.gift);
    assert Storable(a);
    if raw == Encode(a) {
      BothReadersInvertEncode(a);
    } else {
      SplitWhole(raw);
    }
  }

  lemma StateIsNamed(s: string)
    requires StateOf(s).Some?
    ensures s == StateName(StateOf(s).value) && s != ""
  {
  }

  /** The fields that the Go parser read are those it would have to write, once the gift is spelt
      canonically. */
  lemma CanonicalFields(raw: string, a: Admission)
    requires Parse(raw) == Some(a) && |Split(raw)| > 1 && Split(raw)[0] == Itoa(a.gift)
    ensures Split(raw) == Fields(a)
  {
    var parts := Split(raw);
    StateIsNamed(parts[1]);
    if |parts| == 4 {
      assert a.id == Identity(parts[2], parts[3]);
      FieldsOfFour(a);
    }
  }

  /** A text with a bar that no script can address under its gift is spelt otherwise. */
  lemma AddressedIsCanonical(raw: string, gift: int)
    requires |Split(raw)| > 1 && LuaRead(raw).gift == Itoa(gift)
    ensures Split(raw)[0] == Itoa(gift)
  {
    JoinInvertsSplit(raw);
    ItoaHasNoBar(gift);
  }

  /** Exactly which texts both readers understand alike: the ones the scripts write, and the old
      format's bare gift number.  Any other text the Go parser accepts spells its gift in a way
      (a sign, leading zeros) that no script addresses. */
  lemma ReadersAgreeExactlyOnWrittenText(raw: string)
    requires Parse(raw).Some?
    ensures
      var a := Parse(raw).value;
      LuaAddresses(raw, a.gift, a.id) <==> Written(raw, a)
  {
    var a, parts := Parse(raw).value, Split(raw);
    if Written(raw, a) {
      WrittenIsAddressed(raw);
    }
    if LuaAddresses(raw, a.gift, a.id) {
      JoinInvertsSplit(raw);
      if |parts| == 1 {
        assert parts == [raw];
      } else {
        AddressedIsCanonical(raw, a.gift);
        CanonicalFields(raw, a);
      }
    }
  }
}
