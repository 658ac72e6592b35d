/** The Open Sound Control 1.0 message printer and parser (examples/json_client.py).
    Text is its UTF-8 bytes; a float is its 32-bit pattern. */
module Osc {
  import opened Wrappers

  type Byte = b: int | 0 <= b < 256

  const TWO31 := 0x8000_0000
  const TWO32 := 0x1_0000_0000
  const TWO63 := 0x8000_0000_0000_0000
  const TWO64 := 0x1_0000_0000_0000_0000

  const COMMA: Byte := 44
  const TAG_B: Byte := 98
  const TAG_D: Byte := 100
  const TAG_F: Byte := 102
  const TAG_H: Byte := 104
  const TAG_I: Byte := 105
  const TAG_S: Byte := 115
  const TAG_T: Byte := 116

  /** What a caller passes: `Unsupported` is any other Python object. */
  datatype Argument =
    | Boolean(value: bool)
    | Long(v: int)
    | Int(v: int)
    | Float(bits: nat)
    | Text(text: seq<Byte>)
    | Blob(data: seq<Byte>)
    | Unsupported

  /** What a caller gets: both integer widths arrive as plain integers. */
  datatype Value =
    | Number(v: int)
    | Single(bits: nat)
    | Double(bits: nat)
    | Time(seconds: real)
    | String(text: seq<Byte>)
    | Bytes(data: seq<Byte>)

  datatype Error = TypeError | StructError | ValueError

  // ---- bytes ----

  function Zeros(n: nat): seq<Byte> { seq(n, _ => 0) }

  function Pad(data: seq<Byte>): seq<Byte> { data + Zeros(-|data| % 4) }

  function Terminated(s: seq<Byte>): seq<Byte> { Pad(s + [0]) }

  function Pack32(u: nat): seq<Byte>
    requires u < TWO32
  {
    [u / 0x100_0000, u / 0x1_0000 % 256, u / 0x100 % 256, u % 256]
  }

  function Unpack32(b: seq<Byte>): (u: nat)
    requires |b| == 4
    ensures u < TWO32
  {
    (b[0] as int) * 0x100_0000 + (b[1] as int) * 0x1_0000 + (b[2] as int) * 0x100 + b[3] as int
  }

  function Pack64(u: nat): seq<Byte>
    requires u < TWO64
  {
    Pack32(u / TWO32) + Pack32(u % TWO32)
  }

  function Unpack64(b: seq<Byte>): (u: nat)
    requires |b| == 8
    ensures u < TWO64
  {
    TWO32 * Unpack32(b[..4]) + Unpack32(b[4..])
  }

  function Signed(u: nat, half: int): int { if u < half then u else u - 2 * half }

  lemma Packed32(u: nat)
    requires u < TWO32
    ensures |Pack32(u)| == 4 && Unpack32(Pack32(u)) == u
  {
    Halves(u);
    Joined(u / 0x1_0000);
    Joined(u % 0x1_0000);
  }

  lemma Joined(half: nat)
    ensures half == 0x100 * (half / 0x100) + half % 0x100
  {
  }

  lemma Halves(u: nat)
    ensures u == 0x1_0000 * (u / 0x1_0000) + u % 0x1_0000
    ensures u / 0x100_0000 == u / 0x1_0000 / 0x100 && u / 0x100 % 0x100 == u % 0x1_0000 / 0x100
    ensures u % 0x100 == u % 0x1_0000 % 0x100
  {
    var high, low := u / 0x1_0000, u % 0x1_0000;
    assert u / 0x100 == 0x100 * high + low / 0x100;
  }

  lemma Packed64(u: nat)
    requires u < TWO64
    ensures |Pack64(u)| == 8 && Unpack64(Pack64(u)) == u
  {
    Packed32(u / TWO32);
    Packed32(u % TWO32);
    assert Pack64(u)[..4] == Pack32(u / TWO32) && Pack64(u)[4..] == Pack32(u % TWO32);
  }

  // ---- printing ----

  /** The error one argument raises, if any. */
  function Refusal(a: Argument): Option<Error> {
    match a
    case Boolean(_) => Some(TypeError)
    case Long(v) => if -TWO63 <= v < TWO63 then None else Some(StructError)
    case Int(v) => if -TWO31 <= v < TWO31 then None else Some(StructError)
    case Float(bits) => if bits < TWO32 then None else Some(StructError)
    case Text(_) => None
    case Blob(data) => if |data| < TWO31 then None else Some(StructError)
    case Unsupported => Some(TypeError)
  }

  function Tag(a: Argument): Byte
    requires Refusal(a).None?
  {
    match a
    case Long(_) => TAG_H
    case Int(_) => TAG_I
    case Float(_) => TAG_F
    case Text(_) => TAG_S
    case Blob(_) => TAG_B
  }

  function Data(a: Argument): seq<Byte>
    requires Refusal(a).None?
  {
    match a
    case Long(v) => Pack64(v % TWO64)
    case Int(v) => Pack32(v % TWO32)
    case Float(bits) => Pack32(bits)
    case Text(text) => Terminated(text)
    case Blob(data) => Pack32(|data|) + Pad(data)
  }

  /** Type tags and data of the arguments, or the first error one raises. */
  function Printed(args: seq<Argument>): Result<(seq<Byte>, seq<Byte>), Error>
    decreases |args|
  {
    if args == [] then Ok(([], []))
    else
      var last := args[|args| - 1];
      match Printed(args[..|args| - 1])
      case Err(e) => Err(e)
      case Ok((tags, data)) =>
        if Refusal(last).Some? then Err(Refusal(last).value) else Ok((tags + [Tag(last)], data + Data(last)))
  }

  function Message(addr: seq<Byte>, args: seq<Argument>): Result<seq<Byte>, Error> {
    match Printed(args)
    case Err(e) => Err(e)
    case Ok((tags, data)) => Ok(Terminated(addr) + Terminated([COMMA] + tags) + data)
  }

  method Print(addr: seq<Byte>, args: seq<Argument>) returns (r: Result<seq<Byte>, Error>)
    ensures r == Message(addr, args)
  {
    var tags, data := [COMMA], [];
    for i := 0 to |args|
      invariant Printed(args[..i]).Ok?
      invariant tags == [COMMA] + Printed(args[..i]).value.0 && data == Printed(args[..i]).value.1
    {
      assert args[..i + 1][..i] == args[..i];
      var a := args[i];
      if Refusal(a).Some? {
        PrefixFails(args, i + 1);
        return Err(Refusal(a).value);
      }
      tags, data := tags + [Tag(a)], data + Data(a);
    }
    assert args[..|args|] == args;
    r := Ok(Terminated(addr) + Terminated(tags) + data);
  }

  lemma {:induction false} PrefixFails(args: seq<Argument>, i: nat)
    requires i <= |args| && Printed(args[..i]).Err?
    ensures Printed(args) == Printed(args[..i])
    decreases |args|
  {
    if i < |args| {
      assert args[..|args| - 1][..i] == args[..i];
      PrefixFails(args[..|args| - 1], i);
    } else {
      assert args[..i] == args;
    }
  }

  // ---- parsing ----

  /** A slice bound as Python reads it: from the end when negative, clamped. */
  function Bound(n: nat, i: int): (k: nat)
    ensures k <= n
  {
    if i < 0 then (if n + i < 0 then 0 else n + i) else if i > n then n else i
  }

  function Slice(data: seq<Byte>, a: int, b: int): seq<Byte> {
    var lo, hi := Bound(|data|, a), Bound(|data|, b);
    if lo <= hi then data[lo..hi] else []
  }

  function From(data: seq<Byte>, a: int): seq<Byte> { data[Bound(|data|, a)..] }

  /** The first zero byte, or the length. */
  function ZeroAt(data: seq<Byte>, i: nat): (k: nat)
    requires i <= |data|
    ensures i <= k <= |data|
    ensures forall j :: i <= j < k ==> data[j] != 0
    ensures k < |data| ==> data[k] == 0
    decreases |data| - i
  {
    if i == |data| || data[i] == 0 then i else ZeroAt(data, i + 1)
  }

  function ReadString(data: seq<Byte>): Result<(seq<Byte>, seq<Byte>), Error> {
    var end := ZeroAt(data, 0);
    if end == |data| then Err(ValueError) else Ok((data[..end], From(data, (end + 4) / 4 * 4)))
  }

  function StripCommas(tags: seq<Byte>): seq<Byte>
    decreases |tags|
  {
    if tags != [] && tags[0] == COMMA then StripCommas(tags[1..]) else tags
  }

  /** One argument read off the front of the data, and what is left. */
  function ReadOne(tag: Byte, rest: seq<Byte>): Result<(Value, seq<Byte>), Error> {
    var four, eight := Slice(rest, 0, 4), Slice(rest, 0, 8);
    if tag == TAG_I then
      if |four| == 4 then Ok((Number(Signed(Unpack32(four), TWO31)), From(rest, 4))) else Err(StructError)
    else if tag == TAG_H then
      if |eight| == 8 then Ok((Number(Signed(Unpack64(eight), TWO63)), From(rest, 8))) else Err(StructError)
    else if tag == TAG_F then
      if |four| == 4 then Ok((Single(Unpack32(four)), From(rest, 4))) else Err(StructError)
    else if tag == TAG_D then
      if |eight| == 8 then Ok((Double(Unpack64(eight)), From(rest, 8))) else Err(StructError)
    else if tag == TAG_T then
      if |eight| == 8 then
        Ok((Time((Unpack32(eight[..4]) - 2_208_988_800) as real + Unpack32(eight[4..]) as real / 4294967296.0), From(rest, 8)))
      else Err(StructError)
    else if tag == TAG_S then
      match ReadString(rest)
      case Err(e) => Err(e)
      case Ok((text, rest')) => Ok((String(text), rest'))
    else if tag == TAG_B then
      if |four| == 4 then
        var size := Signed(Unpack32(four), TWO31);
        Ok((Bytes(Slice(rest, 4, 4 + size)), From(rest, 4 + (size + 3) / 4 * 4)))
      else Err(StructError)
    else Err(ValueError)
  }

  function ReadAll(tags: seq<Byte>, rest: seq<Byte>): Result<seq<Value>, Error>
    decreases |tags|
  {
    if tags == [] then Ok([])
    else
      match ReadOne(tags[0], rest)
      case Err(e) => Err(e)
      case Ok((value, rest')) =>
        match ReadAll(tags[1..], rest')
        case Err(e) => Err(e)
        case Ok(values) => Ok([value] + values)
  }

  function Parsed(packet: seq<Byte>): Result<(seq<Byte>, seq<Value>), Error> {
    match ReadString(packet)
    case Err(e) => Err(e)
    case Ok((addr, rest)) =>
      match ReadString(rest)
      case Err(e) => Err(e)
      case Ok((tags, rest')) =>
        match ReadAll(StripCommas(tags), rest')
        case Err(e) => Err(e)
        case Ok(values) => Ok((addr, values))
  }

  method Decode(packet: seq<Byte>) returns (r: Result<(seq<Byte>, seq<Value>), Error>)
    ensures r == Parsed(packet)
  {
    var head := ReadString(packet);
    if head.Err? {
      return Err(head.error);
    }
    var types := ReadString(head.value.1);
    if types.Err? {
      return Err(types.error);
    }
    var tags, rest := StripCommas(types.value.0), types.value.1;
    ghost var whole := ReadAll(tags, rest);
    var args: seq<Value> := [];
    assert tags[0..] == tags;
    assert whole.Ok? ==> [] + whole.value == whole.value;
    for i := 0 to |tags|
      invariant match ReadAll(tags[i..], rest)
                case Err(e) => whole == Err(e)
                case Ok(values) => whole == Ok(args + values)
    {
      assert tags[i..][1..] == tags[i + 1..];
      var one := ReadOne(tags[i], rest);
      if one.Err? {
        return Err(one.error);
      }
      ghost var later := ReadAll(tags[i + 1..], one.value.1);
      assert later.Ok? ==> args + ([one.value.0] + later.value) == (args + [one.value.0]) + later.value;
      args, rest := args + [one.value.0], one.value.1;
    }
    assert args + [] == args;
    r := Ok((head.value.0, args));
  }

  // ---- round trip ----

  predicate NoZero(s: seq<Byte>) { 0 !in s }

  function AsValue(a: Argument): Value
    requires Refusal(a).None?
  {
    match a
    case Long(v) => Number(v)
    case Int(v) => Number(v)
    case Float(bits) => Single(bits)
    case Text(text) => String(text)
    case Blob(data) => Bytes(data)
  }

  /** An argument of a supported type that fits its width. */
  predicate Sendable(a: Argument) {
    match a
    case Boolean(_) => false
    case Long(v) => -9_223_372_036_854_775_808 <= v <= 9_223_372_036_854_775_807
    case Int(v) => -2_147_483_648 <= v <= 2_147_483_647
    case Float(bits) => bits <= 4_294_967_295
    case Text(_) => true
    case Blob(data) => |data| <= 2_147_483_647
    case Unsupported => false
  }

  lemma SendableIs(a: Argument)
    ensures Sendable(a) <==> Refusal(a).None?
    ensures !Sendable(a) ==> Refusal(a) == Some(if a.Boolean? || a.Unsupported? then TypeError else StructError)
  {
  }

  ghost predicate Printable(args: seq<Argument>)
    ensures Printable(args) ==> forall i :: 0 <= i < |args| ==> Refusal(args[i]).None?
  {
    forall i :: 0 <= i < |args| ==> Sendable(args[i])
  }

  function AsValues(args: seq<Argument>): seq<Value>
    requires Printable(args)
  {
    seq(|args|, i requires 0 <= i < |args| => AsValue(args[i]))
  }

  ghost predicate TextsNoZero(args: seq<Argument>) {
    forall i :: 0 <= i < |args| && args[i].Text? ==> NoZero(args[i].text)
  }

  function AllTags(args: seq<Argument>): seq<Byte>
    requires Printable(args)
    decreases |args|
  {
    if args == [] then [] else [Tag(args[0])] + AllTags(args[1..])
  }

  function AllData(args: seq<Argument>): seq<Byte>
    requires Printable(args)
    decreases |args|
  {
    if args == [] then [] else Data(args[0]) + AllData(args[1..])
  }

  lemma {:induction false} PrintedIs(args: seq<Argument>)
    ensures Printed(args).Ok? <==> Printable(args)
    ensures Printable(args) ==> Printed(args).value == (AllTags(args), AllData(args))
    decreases |args|
  {
    hide Tag, Data, Refusal;
    if args != [] {
      var init, last := args[..|args| - 1], args[|args| - 1];
      SendableIs(last);
      PrintedIs(init);
      if Printable(args) {
        assert Printable(init);
        AllSnoc(init, last);
        assert args == init + [last];
      } else if Printable(init) {
        assert forall i :: 0 <= i < |init| ==> args[i] == init[i];
      }
    }
  }

  lemma {:induction false} AllSnoc(args: seq<Argument>, a: Argument)
    requires Printable(args) && Refusal(a).None?
    ensures Printable(args + [a])
    ensures AllTags(args + [a]) == AllTags(args) + [Tag(a)] && AllData(args + [a]) == AllData(args) + Data(a)
    decreases |args|
  {
    hide Tag, Data;
    if args == [] {
      assert [a][1..] == [];
    } else {
      assert (args + [a])[1..] == args[1..] + [a];
      AllSnoc(args[1..], a);
    }
  }

  lemma PadAligned(data: seq<Byte>)
    ensures |Pad(data)| % 4 == 0 && |Pad(data)| == (|data| + 3) / 4 * 4
  {
  }

  lemma {:induction false} ZeroFirst(s: seq<Byte>, more: seq<Byte>, i: nat)
    requires NoZero(s) && i <= |s|
    ensures ZeroAt(s + [0] + more, i) == |s|
    decreases |s| - i
  {
    if i < |s| {
      assert (s + [0] + more)[i] == s[i];
      ZeroFirst(s, more, i + 1);
    }
  }

  /** A terminated string with no zero in it reads back, and leaves what follows. */
  lemma StringReads(s: seq<Byte>, more: seq<Byte>)
    requires NoZero(s)
    ensures ReadString(Terminated(s) + more) == Ok((s, more))
  {
    PadAligned(s + [0]);
    var zeros := Zeros(-(|s| + 1) % 4);
    assert Terminated(s) + more == s + [0] + (zeros + more);
    ZeroFirst(s, zeros + more, 0);
    var n := (|s| + 4) / 4 * 4;
    assert |Terminated(s)| == n;
    assert (Terminated(s) + more)[..|s|] == s;
    assert (Terminated(s) + more)[n..] == more;
  }

  lemma Takes(a: seq<Byte>, more: seq<Byte>)
    ensures Slice(a + more, 0, |a|) == a && From(a + more, |a|) == more
  {
  }

  lemma BlobReads(data: seq<Byte>, more: seq<Byte>)
    requires |data| < TWO31
    ensures ReadOne(TAG_B, Pack32(|data|) + Pad(data) + more) == Ok((Bytes(data), more))
  {
    hide Pack32, Unpack32;
    var n := |data|;
    Packed32(n);
    PadAligned(data);
    var rest := Pack32(n) + Pad(data) + more;
    assert rest == Pack32(n) + (Pad(data) + more);
    Takes(Pack32(n), Pad(data) + more);
    assert Signed(n, TWO31) == n;
    assert Slice(rest, 4, 4 + n) == data;
    assert From(rest, 4 + (n + 3) / 4 * 4) == more;
  }

  /** Each argument reads back as its value and leaves what follows it. */
  lemma ArgumentReads(a: Argument, more: seq<Byte>)
    requires Refusal(a).None? && (a.Text? ==> NoZero(a.text))
    ensures ReadOne(Tag(a), Data(a) + more) == Ok((AsValue(a), more))
  {
    hide Pack32, Unpack32, Pack64, Unpack64;
    match a
    case Long(v) =>
      Packed64(v % TWO64);
      Takes(Pack64(v % TWO64), more);
    case Int(v) =>
      Packed32(v % TWO32);
      Takes(Pack32(v % TWO32), more);
    case Float(bits) =>
      Packed32(bits);
      Takes(Pack32(bits), more);
    case Text(text) => StringReads(text, more);
    case Blob(data) => BlobReads(data, more);
  }

  lemma ReadsFirst(tags: seq<Byte>, data: seq<Byte>, value: Value, rest: seq<Byte>, values: seq<Value>)
    requires tags != [] && ReadOne(tags[0], data) == Ok((value, rest)) && ReadAll(tags[1..], rest) == Ok(values)
    ensures ReadAll(tags, data) == Ok([value] + values)
  {
    hide ReadOne;
  }

  lemma {:induction false} ArgumentsRead(args: seq<Argument>)
    requires Printable(args) && TextsNoZero(args)
    ensures ReadAll(AllTags(args), AllData(args)) == Ok(AsValues(args))
    decreases |args|
  {
    hide Data, ReadOne, Tag, AsValue;
    if args == [] {
      assert AsValues(args) == [];
    } else {
      ArgumentReads(args[0], AllData(args[1..]));
      assert AllTags(args)[0] == Tag(args[0]) && AllTags(args)[1..] == AllTags(args[1..]);
      assert AllData(args) == Data(args[0]) + AllData(args[1..]);
      ArgumentsRead(args[1..]);
      ReadsFirst(AllTags(args), AllData(args), AsValue(args[0]), AllData(args[1..]), AsValues(args[1..]));
      assert AsValues(args) == [AsValue(args[0])] + AsValues(args[1..]);
    }
  }

  lemma {:induction false} TagsAre(args: seq<Argument>)
    requires Printable(args)
    ensures NoZero([COMMA] + AllTags(args)) && StripCommas([COMMA] + AllTags(args)) == AllTags(args)
    decreases |args|
  {
    assert ([COMMA] + AllTags(args))[1..] == AllTags(args);
    if args != [] { TagsAre(args[1..]); }
  }

  lemma MessageReads(addr: seq<Byte>, args: seq<Argument>)
    requires Printable(args) && NoZero(addr) && TextsNoZero(args)
    ensures Message(addr, args).Ok? && Parsed(Message(addr, args).value) == Ok((addr, AsValues(args)))
  {
    hide ReadString, ReadAll, StripCommas, Terminated;
    PrintedIs(args);
    var tags, data := [COMMA] + AllTags(args), AllData(args);
    assert Message(addr, args).value == Terminated(addr) + (Terminated(tags) + data);
    TagsAre(args);
    StringReads(addr, Terminated(tags) + data);
    StringReads(tags, data);
    ArgumentsRead(args);
  }

  // ---- what the bytes are ----

  /** Bytes as one number, the first the highest. */
  function Big(b: seq<Byte>): (n: nat)
    decreases |b|
  {
    if b == [] then 0 else 256 * Big(b[..|b| - 1]) + b[|b| - 1]
  }

  lemma BigFour(b: seq<Byte>)
    requires |b| == 4
    ensures Unpack32(b) == Big(b)
  {
    assert Big(b[..3]) == 256 * Big(b[..3][..2]) + b[2];
    assert b[..3][..2] == b[..2] && b[..2][..1] == b[..1] && b[..1][..0] == [];
    assert Big(b[..2]) == 256 * Big(b[..1]) + b[1] && Big(b[..1]) == b[0];
  }

  lemma {:induction false} BigJoin(a: seq<Byte>, b: seq<Byte>)
    requires |b| == 4
    ensures Big(a + b) == 4_294_967_296 * Big(a) + Big(b)
  {
    var s := a + b;
    var n := |a|;
    assert s[..n + 3][..n + 2] == s[..n + 2] && s[..n + 2][..n + 1] == s[..n + 1] && s[..n + 1][..n] == a;
    assert Big(s) == 256 * Big(s[..n + 3]) + b[3];
    assert Big(s[..n + 3]) == 256 * Big(s[..n + 2]) + b[2];
    assert Big(s[..n + 2]) == 256 * Big(s[..n + 1]) + b[1];
    assert Big(s[..n + 1]) == 256 * Big(a) + b[0];
    BigFour(b);
  }

  lemma BigEight(b: seq<Byte>)
    requires |b| == 8
    ensures Unpack64(b) == Big(b)
  {
    BigFour(b[..4]);
    BigFour(b[4..]);
    BigJoin(b[..4], b[4..]);
    assert b == b[..4] + b[4..];
  }

  /** A number of so many values, read with its upper half negative. */
  function TwosComplement(n: nat, values: nat): int { if 2 * n >= values then n - values else n }

  /** `b` is `data` and then zeros up to a whole number of 4-byte words. */
  ghost predicate Padded(b: seq<Byte>, data: seq<Byte>) {
    data <= b && |b| % 4 == 0 && |b| < |data| + 4 && forall i :: |data| <= i < |b| ==> b[i] == 0
  }

  lemma PadIs(data: seq<Byte>)
    ensures Padded(Pad(data), data)
  {
  }

  /** What each argument is on the wire: its letter; integers, lengths and floats with
      the highest byte first; text with at least one zero after it, and text and blobs
      filled up with zeros. */
  lemma ArgumentBytes(a: Argument)
    requires Sendable(a)
    ensures Refusal(a).None?
    ensures match a
            case Int(v) => Tag(a) == 'i' as int && |Data(a)| == 4 && TwosComplement(Big(Data(a)), 0x1_0000_0000) == v
            case Long(v) => Tag(a) == 'h' as int && |Data(a)| == 8 && TwosComplement(Big(Data(a)), 0x1_0000_0000_0000_0000) == v
            case Float(bits) => Tag(a) == 'f' as int && |Data(a)| == 4 && Big(Data(a)) == bits
            case Text(text) => Tag(a) == 's' as int && Padded(Data(a), text + [0])
            case Blob(data) =>
              && Tag(a) == 'b' as int && |Data(a)| >= 4 && Big(Data(a)[..4]) == |data| && Padded(Data(a)[4..], data)
  {
    hide Pack32, Unpack32, Pack64, Unpack64, Big, Padded, Pad;
    SendableIs(a);
    match a
    case Int(v) =>
      Packed32(v % TWO32);
      BigFour(Data(a));
    case Long(v) =>
      Packed64(v % TWO64);
      BigEight(Data(a));
    case Float(bits) =>
      Packed32(bits);
      BigFour(Data(a));
    case Text(text) => PadIs(text + [0]);
    case Blob(data) =>
      Packed32(|data|);
      PadIs(data);
      assert Data(a)[..4] == Pack32(|data|) && Data(a)[4..] == Pad(data);
      BigFour(Data(a)[..4]);
  }

  /** A message is its address, a comma with the arguments' letters, and their data. */
  lemma MessageBytes(addr: seq<Byte>, args: seq<Argument>)
    requires Printable(args)
    ensures Message(addr, args).Ok?
    ensures exists a, t :: Padded(a, addr + [0]) && Padded(t, [',' as int] + AllTags(args) + [0])
                           && Message(addr, args).value == a + t + AllData(args)
  {
    hide Padded, Pad, AllTags, AllData;
    PrintedIs(args);
    PadIs(addr + [0]);
    PadIs([COMMA] + AllTags(args) + [0]);
    assert Padded(Terminated(addr), addr + [0]) && Padded(Terminated([COMMA] + AllTags(args)), [',' as int] + AllTags(args) + [0]);
  }

  /** A message that does not print fails with the error of its first argument that
      cannot be sent: of type for a bool or an unsupported object, else of width. */
  lemma {:induction false} FirstError(addr: seq<Byte>, args: seq<Argument>) returns (i: nat)
    requires Message(addr, args).Err?
    ensures i < |args| && !Sendable(args[i]) && forall j :: 0 <= j < i ==> Sendable(args[j])
    ensures Message(addr, args) == Err(if args[i].Boolean? || args[i].Unsupported? then TypeError else StructError)
    decreases |args|
  {
    hide Refusal, Sendable, Tag, Data;
    var init, last := args[..|args| - 1], args[|args| - 1];
    SendableIs(last);
    if Printed(init).Err? {
      i := FirstError(addr, init);
    } else {
      i := |args| - 1;
      PrintedIs(init);
    }
  }

  /** What each letter reads, from at least as many bytes as it takes: integers,
      floats and doubles with the highest byte first, a time in seconds of the Unix
      epoch, counted on the wire from 1900 and in fractions of 2^32. Fewer bytes are an
      error of width, any other letter one of value. */
  lemma LettersRead(tag: Byte, rest: seq<Byte>)
    ensures var r := ReadOne(tag, rest);
            if tag == 'i' as int then
              if |rest| < 4 then r == Err(StructError)
              else r == Ok((Number(TwosComplement(Big(rest[..4]), 0x1_0000_0000)), rest[4..]))
            else if tag == 'f' as int then
              if |rest| < 4 then r == Err(StructError) else r == Ok((Single(Big(rest[..4])), rest[4..]))
            else if tag == 'h' as int then
              if |rest| < 8 then r == Err(StructError)
              else r == Ok((Number(TwosComplement(Big(rest[..8]), 0x1_0000_0000_0000_0000)), rest[8..]))
            else if tag == 'd' as int then
              if |rest| < 8 then r == Err(StructError) else r == Ok((Double(Big(rest[..8])), rest[8..]))
            else if tag == 't' as int then
              if |rest| < 8 then r == Err(StructError)
              else
                && r.Ok? && r.value.1 == rest[8..] && r.value.0.Time?
                && (r.value.0.seconds + 2_208_988_800.0 - Big(rest[..4]) as real) * 4_294_967_296.0 == Big(rest[4..8]) as real
            else if tag == 's' as int then r.Ok? ==> r.value.0.String?
            else if tag == 'b' as int then |rest| < 4 ==> r == Err(StructError)
            else r == Err(ValueError)
  {
    hide Unpack32, Unpack64, Big, ReadString;
    if |rest| >= 4 { BigFour(rest[..4]); }
    if |rest| >= 8 {
      BigEight(rest[..8]);
      BigFour(rest[4..8]);
      assert rest[..8][..4] == rest[..4] && rest[..8][4..] == rest[4..8];
    }
  }

  /** Text is read to its first zero, and what follows starts at the next whole word;
      without a zero it is an error of value. A packet shorter than its padding is read
      as if it ended there. */
  lemma TextRead(rest: seq<Byte>)
    ensures var r := ReadString(rest);
            if NoZero(rest) then r == Err(ValueError)
            else
              && r.Ok?
              && var (text, after) := r.value;
                 && NoZero(text) && text + [0] <= rest
                 && var word := |text| + 4 - |text| % 4;
                    after == if word <= |rest| then rest[word..] else []
  {
    var end := ZeroAt(rest, 0);
    if end < |rest| { assert rest[end] in rest; }
    assert forall j :: 0 <= j < end ==> rest[..end][j] == rest[j];
  }

  /** A blob is as many bytes as its length says, as far as they are there, and what
      follows starts at the next whole word. */
  lemma BlobRead(rest: seq<Byte>)
    requires |rest| >= 4 && Big(rest[..4]) < 0x8000_0000
    ensures var r, size := ReadOne('b' as int, rest), Big(rest[..4]);
            && r.Ok?
            && var end, word := 4 + size, 4 + size + (4 - size % 4) % 4;
               && r.value.0 == Bytes(rest[4..if end <= |rest| then end else |rest|])
               && r.value.1 == if word <= |rest| then rest[word..] else []
  {
    hide Unpack32, Big;
    BigFour(rest[..4]);
  }

  /** A length of `-m` counts from the end, as a negative bound does: the blob stops
      `m - 4` bytes before the end, and reading goes on that many bytes, in whole
      words, before it -- for a length of -4 to -7 from the blob's own start. */
  lemma BlobReadBack(rest: seq<Byte>)
    requires |rest| >= 4 && Big(rest[..4]) >= 0x8000_0000
    ensures var r, m := ReadOne('b' as int, rest), 0x1_0000_0000 - Big(rest[..4]);
            && r.Ok?
            && (var end := |rest| + 4 - m;
                r.value.0 == Bytes(if m > 4 && end > 4 then rest[4..end] else []))
            && (var words := m - m % 4;
                r.value.1 ==
                if m < 4 then rest[4..]
                else if m < 8 || words - 4 >= |rest| then rest
                else rest[|rest| + 4 - words..])
  {
    hide Unpack32, Big;
    BigFour(rest[..4]);
    var size := Signed(Unpack32(rest[..4]), TWO31);
    var m := -size;
    WordsBack(m);
    assert |rest[..4]| == 4;
  }

  lemma WordsBack(m: int)
    requires m >= 1
    ensures (3 - m) / 4 * 4 == -(m - m % 4)
  {
  }

  /** The tags that count are those from the first that is no comma on. */
  lemma {:induction false} CommasStripped(tags: seq<Byte>) returns (n: nat)
    ensures n <= |tags| && StripCommas(tags) == tags[n..]
    ensures (forall k :: 0 <= k < n ==> tags[k] == ',' as int) && (n < |tags| ==> tags[n] != ',' as int)
    decreases |tags|
  {
    n := 0;
    if tags != [] && tags[0] == COMMA {
      n := CommasStripped(tags[1..]);
      n := n + 1;
    }
  }

  // ---- and only those ----

  ghost predicate StringsNoZero(values: seq<Value>) {
    forall i :: 0 <= i < |values| && values[i].String? ==> NoZero(values[i].text)
  }

  lemma ReadsNoZero(data: seq<Byte>)
    ensures ReadString(data).Ok? ==> NoZero(ReadString(data).value.0)
  {
    var end := ZeroAt(data, 0);
    assert forall j :: 0 <= j < end ==> data[..end][j] == data[j];
  }

  lemma OneNoZero(tag: Byte, rest: seq<Byte>)
    ensures var r := ReadOne(tag, rest); r.Ok? && r.value.0.String? ==> NoZero(r.value.0.text)
  {
    hide Unpack32, Unpack64, ReadString;
    ReadsNoZero(rest);
  }

  lemma {:induction false} AllNoZero(tags: seq<Byte>, rest: seq<Byte>)
    ensures ReadAll(tags, rest).Ok? ==> StringsNoZero(ReadAll(tags, rest).value)
    decreases |tags|
  {
    hide ReadOne, NoZero;
    if tags != [] {
      var one := ReadOne(tags[0], rest);
      OneNoZero(tags[0], rest);
      if one.Ok? { AllNoZero(tags[1..], one.value.1); }
    }
  }

  /** Whatever arrives, no address and no string read from it has a zero byte. */
  lemma ParsedNoZero(packet: seq<Byte>)
    ensures Parsed(packet).Ok? ==> NoZero(Parsed(packet).value.0) && StringsNoZero(Parsed(packet).value.1)
  {
    hide ReadAll, StripCommas, ReadString, NoZero;
    ReadsNoZero(packet);
    if ReadString(packet).Ok? {
      var types := ReadString(ReadString(packet).value.1);
      if types.Ok? { AllNoZero(StripCommas(types.value.0), types.value.1); }
    }
  }

  /** A message prints if and only if every argument is of a supported type and
      fits its width. What prints is a whole number of 4-byte words, and reading
      it gives back the address and every argument if and only if neither the
      address nor any string holds a zero byte. */
  lemma RoundTrip(addr: seq<Byte>, args: seq<Argument>)
    ensures Message(addr, args).Ok? <==> Printable(args)
    ensures Printable(args) ==>
              && |Message(addr, args).value| % 4 == 0
              && (Parsed(Message(addr, args).value) == Ok((addr, AsValues(args))) <==> NoZero(addr) && TextsNoZero(args))
  {
    hide Parsed, Terminated, AllData, AllTags, NoZero, AsValue;
    PrintedIs(args);
    if Printable(args) {
      Aligned(addr, args);
      if NoZero(addr) && TextsNoZero(args) {
        MessageReads(addr, args);
      }
      ParsedNoZero(Message(addr, args).value);
      ValuesNoZero(args);
    }
  }

  lemma ValuesNoZero(args: seq<Argument>)
    requires Printable(args)
    ensures StringsNoZero(AsValues(args)) ==> TextsNoZero(args)
  {
    hide NoZero;
    if StringsNoZero(AsValues(args)) {
      forall i | 0 <= i < |args| && args[i].Text? ensures NoZero(args[i].text) {
        assert AsValues(args)[i] == String(args[i].text);
      }
    }
  }

  lemma {:induction false} DataAligned(args: seq<Argument>)
    requires Printable(args)
    ensures |AllData(args)| % 4 == 0
    decreases |args|
  {
    hide Data;
    if args != [] {
      OneAligned(args[0]);
      DataAligned(args[1..]);
    }
  }

  lemma OneAligned(a: Argument)
    requires Refusal(a).None?
    ensures |Data(a)| % 4 == 0
  {
    hide Pad;
    match a
    case Text(text) => PadAligned(text + [0]);
    case Blob(data) =>
      PadAligned(data);
      BlobAligned(data);
    case Long(v) => assert |Pack64(v % TWO64)| == 8;
    case _ =>
  }

  lemma BlobAligned(data: seq<Byte>)
    requires |data| < TWO31
    ensures |Data(Blob(data))| == 4 + |Pad(data)|
  {
    hide Pad;
  }

  lemma Aligned(addr: seq<Byte>, args: seq<Argument>)
    requires Printable(args)
    ensures Message(addr, args).Ok? && |Message(addr, args).value| % 4 == 0
  {
    hide Terminated, AllData, AllTags;
    PrintedIs(args);
    TerminatedAligned(addr);
    TerminatedAligned([COMMA] + AllTags(args));
    DataAligned(args);
  }

  lemma TerminatedAligned(s: seq<Byte>)
    ensures |Terminated(s)| % 4 == 0
  {
    PadAligned(s + [0]);
  }
}
