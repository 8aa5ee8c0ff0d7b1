/** The REST value codec: Python values to Firestore value objects and back. */
module FirestoreCodec {
  import opened Json

  /** The string that stands for "the time of the write". */
  const SERVER_TIMESTAMP: string := "SERVER_TIMESTAMP"

  /** A Firestore value object, by the one key it carries. */
  datatype FirestoreValue =
    | NullValue
    | BooleanValue(b: bool)
    | IntegerValue(digits: string)
    | DoubleValue(r: real)
    | StringValue(s: string)
    | TimestampValue(iso: string)
    | MapValue(fields: map<string, FirestoreValue>)
    | ArrayValue(values: seq<FirestoreValue>)

  // ---------- decimal integers ----------

  const DIGITS: string := "0123456789"

  function NatToString(n: nat): string {
    if n < 10 then [DIGITS[n]] else NatToString(n / 10) + [DIGITS[n % 10]]
  }

  function IntToString(n: int): string {
    if n < 0 then "-" + NatToString(-n) else NatToString(n)
  }

  function DigitValue(c: char): Option<nat> {
    if '0' <= c <= '9' then Some((c - '0') as nat) else None
  }

  function ParseNat(s: string): Option<nat> {
    if s == [] then None
    else
      match DigitValue(s[|s| - 1])
      case None => None
      case Some(d) =>
        if |s| == 1 then Some(d)
        else
          match ParseNat(s[..|s| - 1])
          case None => None
          case Some(high) => Some(10 * high + d)
  }

  /** `int(s)`; None is the ValueError of text that is no integer. */
  function ParseInt(s: string): Option<int> {
    var negative := s != [] && s[0] == '-';
    match ParseNat(if negative then s[1..] else s)
    case None => None
    case Some(n) => Some(if negative then -(n as int) else n as int)
  }

  lemma DigitRoundTrip(d: nat)
    requires d < 10
    ensures DigitValue(DIGITS[d]) == Some(d)
  {
    assert DIGITS[0] == '0' && DIGITS[1] == '1' && DIGITS[2] == '2' && DIGITS[3] == '3' && DIGITS[4] == '4';
    assert DIGITS[5] == '5' && DIGITS[6] == '6' && DIGITS[7] == '7' && DIGITS[8] == '8' && DIGITS[9] == '9';
  }

  lemma {:induction false} NatRoundTrip(n: nat)
    ensures ParseNat(NatToString(n)) == Some(n)
    ensures NatToString(n)[0] != '-'
  {
    DigitRoundTrip(n % 10);
    if n >= 10 {
      NatRoundTrip(n / 10);
      var s := NatToString(n);
      assert s[..|s| - 1] == NatToString(n / 10);
    }
  }

  lemma IntRoundTrip(n: int)
    ensures ParseInt(IntToString(n)) == Some(n)
  {
    var m: nat := if n < 0 then -n else n;
    var s := NatToString(m);
    NatRoundTrip(m);
    if n < 0 {
      assert IntToString(n) == "-" + s;
      assert ("-" + s)[0] == '-' && ("-" + s)[1..] == s;
    }
  }

  predicate AllDigits(s: string) {
    forall i :: 0 <= i < |s| ==> '0' <= s[i] <= '9'
  }

  function Pow10(k: nat): nat {
    if k == 0 then 1 else 10 * Pow10(k - 1)
  }

  /** The number decimal digits stand for, each by its place. */
  function PlaceValue(s: string): nat
    requires AllDigits(s)
  {
    if s == [] then 0 else (s[0] - '0') as nat * Pow10(|s| - 1) + PlaceValue(s[1..])
  }

  lemma {:induction false} PlaceValueLast(s: string, c: char)
    requires AllDigits(s) && '0' <= c <= '9'
    ensures PlaceValue(s + [c]) == 10 * PlaceValue(s) + (c - '0') as nat
  {
    var more := s + [c];
    if s == [] {
      assert more[1..] == [];
      assert Pow10(0) == 1;
    } else {
      assert more[1..] == s[1..] + [c];
      PlaceValueLast(s[1..], c);
      assert Pow10(|s|) == 10 * Pow10(|s| - 1);
      ProductMoves((s[0] - '0') as nat, Pow10(|s| - 1));
    }
  }

  lemma ProductMoves(a: nat, b: nat)
    ensures a * (10 * b) == 10 * (a * b)
  {
  }

  lemma DigitIs(d: nat)
    requires d < 10
    ensures DIGITS[d] - '0' == d as char && '0' <= DIGITS[d] <= '9' && (DIGITS[d] - '0') as nat == d
  {
    DigitRoundTrip(d);
  }

  /** A number is printed as digits that stand for it, without leading zeros. */
  lemma {:induction false} NatDigits(n: nat)
    ensures var s := NatToString(n);
            s != "" && AllDigits(s) && PlaceValue(s) == n && (s[0] == '0' ==> n == 0 && |s| == 1)
  {
    DigitIs(n % 10);
    if n < 10 {
      assert NatToString(n)[1..] == "" && Pow10(0) == 1;
    } else {
      NatDigits(n / 10);
      PlaceValueLast(NatToString(n / 10), DIGITS[n % 10]);
    }
  }

  /** The text is the integer in decimal: a minus sign for a negative one, and digits without leading zeros. */
  ghost predicate Writes(text: string, n: int) {
    var digits := if n < 0 && text != "" then text[1..] else text;
    && (n < 0 ==> text != "" && text[0] == '-')
    && digits != "" && AllDigits(digits) && PlaceValue(digits) == (if n < 0 then -n else n)
    && (digits[0] == '0' ==> |digits| == 1)
  }

  lemma IntDigits(n: int)
    ensures Writes(IntToString(n), n)
  {
    var m: nat := if n < 0 then -n else n;
    NatDigits(m);
    if n < 0 {
      assert IntToString(n)[1..] == NatToString(m);
    }
  }

  // ---------- values ----------

  /** `isinstance(v, int)`: Python's bool is a subclass of int. */
  predicate IsIntInstance(v: Json) {
    v.Int? || v.Bool?
  }

  /** `str(v)` of an int instance. */
  function IntText(v: Json): string
    requires IsIntInstance(v)
  {
    match v
    case Bool(b) => if b then "True" else "False"
    case Int(i) => IntToString(i)
  }

  /** `_to_firestore_value`, with `clientTime` the clock reading of the fallback. */
  function Encode(v: Json, clientTime: string): FirestoreValue {
    if v.Null? then NullValue
    else if v == Str(SERVER_TIMESTAMP) then TimestampValue(clientTime)
    else if v.Bool? then BooleanValue(v.b)
    else if IsIntInstance(v) then IntegerValue(IntText(v))
    else
      match v
      case Float(r) => DoubleValue(r)
      case Str(s) => StringValue(s)
      case Obj(fields) => MapValue(map k | k in fields :: Encode(fields[k], clientTime))
      case List(items) => ArrayValue(seq(|items|, i requires 0 <= i < |items| => Encode(items[i], clientTime)))
  }

  /** `_from_firestore_value`; None when an integerValue does not parse. */
  function Decode(f: FirestoreValue): Option<Json> {
    match f
    case NullValue => Some(Null)
    case BooleanValue(b) => Some(Bool(b))
    case IntegerValue(digits) => (match ParseInt(digits) case None => None case Some(i) => Some(Int(i)))
    case DoubleValue(r) => Some(Float(r))
    case StringValue(s) => Some(Str(s))
    case TimestampValue(iso) => Some(Str(iso))
    case MapValue(fields) =>
      if forall k | k in fields :: Decode(fields[k]).Some? then
        Some(Obj(map k | k in fields :: Decode(fields[k]).value))
      else None
    case ArrayValue(values) =>
      if forall i | 0 <= i < |values| :: Decode(values[i]).Some? then
        Some(List(seq(|values|, i requires 0 <= i < |values| && Decode(values[i]).Some? => Decode(values[i]).value)))
      else None
  }

  /** What a value reads back as: itself, but for sentinels, which the fallback stamps. */
  function ClientStamped(v: Json, clientTime: string): Json {
    if v == Str(SERVER_TIMESTAMP) then Str(clientTime)
    else
      match v
      case Obj(fields) => Obj(map k | k in fields :: ClientStamped(fields[k], clientTime))
      case List(items) => List(seq(|items|, i requires 0 <= i < |items| => ClientStamped(items[i], clientTime)))
      case _ => v
  }

  /** No timestamp sentinel anywhere inside. */
  predicate Plain(v: Json) {
    && v != Str(SERVER_TIMESTAMP)
    && match v
       case Obj(fields) => forall k | k in fields :: Plain(fields[k])
       case List(items) => forall i | 0 <= i < |items| :: Plain(items[i])
       case _ => true
  }

  lemma {:induction false} PlainKept(v: Json, clientTime: string)
    requires Plain(v)
    ensures ClientStamped(v, clientTime) == v
  {
    match v
    case Obj(fields) =>
      forall k | k in fields
        ensures ClientStamped(fields[k], clientTime) == fields[k]
      {
        PlainKept(fields[k], clientTime);
      }
      assert ClientStamped(v, clientTime).fields == fields;
    case List(items) =>
      forall i | 0 <= i < |items|
        ensures ClientStamped(items[i], clientTime) == items[i]
      {
        PlainKept(items[i], clientTime);
      }
      assert ClientStamped(v, clientTime).items == items;
    case _ =>
  }

  /** Decoding an encoding never fails, and only a sentinel reads back as anything else. */
  lemma {:induction false} DecodeEncode(v: Json, clientTime: string)
    ensures Decode(Encode(v, clientTime)) == Some(ClientStamped(v, clientTime))
  {
    match v
    case Int(i) =>
      IntRoundTrip(i);
    case Obj(fields) =>
      forall k | k in fields
        ensures Decode(Encode(fields[k], clientTime)) == Some(ClientStamped(fields[k], clientTime))
      {
        DecodeEncode(fields[k], clientTime);
      }
      var f := Encode(v, clientTime);
      assert forall k | k in f.fields :: Decode(f.fields[k]).Some?;
      assert Decode(f).value.fields == ClientStamped(v, clientTime).fields;
    case List(items) =>
      forall i | 0 <= i < |items|
        ensures Decode(Encode(items[i], clientTime)) == Some(ClientStamped(items[i], clientTime))
      {
        DecodeEncode(items[i], clientTime);
      }
      var f := Encode(v, clientTime);
      assert forall i | 0 <= i < |f.values| :: Decode(f.values[i]).Some?;
      assert Decode(f).value.items == ClientStamped(v, clientTime).items;
    case _ =>
  }

  /** Which value object a value becomes, and with what in it. */
  lemma {:induction false} EncodedAs(v: Json, clientTime: string)
    ensures var f := Encode(v, clientTime);
            && (f.NullValue? <==> v.Null?)
            && (f.TimestampValue? <==> v == Str("SERVER_TIMESTAMP"))
            && (f.TimestampValue? ==> f.iso == clientTime)
            && (forall s: string :: f == StringValue(s) <==> v == Str(s) && s != "SERVER_TIMESTAMP")
            && (forall b :: f == BooleanValue(b) <==> v == Bool(b))
            && (forall r :: f == DoubleValue(r) <==> v == Float(r))
            && (f.IntegerValue? <==> v.Int?)
            && (v.Int? ==> Writes(f.digits, v.i))
            && (f.MapValue? <==> v.Obj?)
            && (v.Obj? ==> f.fields.Keys == v.fields.Keys
                           && forall k :: k in v.fields ==> f.fields[k] == Encode(v.fields[k], clientTime))
            && (f.ArrayValue? <==> v.List?)
            && (v.List? ==> |f.values| == |v.items|
                            && forall i :: 0 <= i < |v.items| ==> f.values[i] == Encode(v.items[i], clientTime))
  {
    if v.Int? {
      IntDigits(v.i);
    }
  }

  /** The round trip holds exactly for the values that hold no sentinel, whatever the clock reads
      (as long as it does not read "SERVER_TIMESTAMP"). */
  lemma {:induction false} RoundTripExactly(v: Json, clientTime: string)
    requires clientTime != SERVER_TIMESTAMP
    ensures Decode(Encode(v, clientTime)) == Some(v) <==> Plain(v)
  {
    DecodeEncode(v, clientTime);
    if Plain(v) {
      PlainKept(v, clientTime);
    } else {
      NotPlainMoves(v, clientTime);
    }
  }

  lemma {:induction false} NotPlainMoves(v: Json, clientTime: string)
    requires clientTime != SERVER_TIMESTAMP && !Plain(v)
    ensures ClientStamped(v, clientTime) != v
  {
    match v
    case Obj(fields) =>
      var k :| k in fields && !Plain(fields[k]);
      NotPlainMoves(fields[k], clientTime);
      assert ClientStamped(v, clientTime).fields[k] != fields[k];
    case List(items) =>
      var i :| 0 <= i < |items| && !Plain(items[i]);
      NotPlainMoves(items[i], clientTime);
      assert ClientStamped(v, clientTime).items[i] != items[i];
    case _ =>
  }
}
