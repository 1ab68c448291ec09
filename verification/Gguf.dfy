/** The GGUF header reader (agent/inferenceinquire_agent/collectors/gguf.py) against a writer of
    the format of ggml docs/gguf.md, section "File Structure". */
module Gguf {

  import opened Basics

  const MAGIC: Bytes := [71, 71, 85, 70]
  const TRUNCATED: Bytes := [95, 116, 114, 117, 110, 99, 97, 116, 101, 100]
  const COMPRESS_RATIOS: Bytes := [99, 111, 109, 112, 114, 101, 115, 115, 95, 114, 97, 116, 105, 111, 115]
  const KEPT_ITEMS := 256

  const BOOL := 7
  const STR := 8
  const ARR := 9

  // ----------------------------------------------------------- little endian --

  function Pow256(w: nat): (p: nat)
    ensures p > 0
  {
    if w == 0 then 1 else 256 * Pow256(w - 1)
  }

  function Little(w: nat, n: nat): (b: Bytes)
    ensures |b| == w
  {
    if w == 0 then [] else [(n % 256) as Byte] + Little(w - 1, n / 256)
  }

  function FromLittle(b: Bytes): nat {
    if b == [] then 0 else b[0] as nat + 256 * FromLittle(b[1..])
  }

  lemma {:induction false} LittleRoundTrip(w: nat, n: nat)
    requires n < Pow256(w)
    ensures FromLittle(Little(w, n)) == n
  {
    if w == 0 {
    } else {
      LittleRoundTrip(w - 1, n / 256);
    }
  }

  // ------------------------------------------------------------------ values --

  /** Bytes a scalar of this type takes; 0 for the types that are not plain scalars. */
  function Width(t: nat): nat {
    match t
    case 0 => 1 case 1 => 1
    case 2 => 2 case 3 => 2
    case 4 => 4 case 5 => 4 case 6 => 4
    case 10 => 8 case 11 => 8 case 12 => 8
    case _ => 0
  }

  predicate Signed(t: nat) { t == 1 || t == 3 || t == 5 || t == 11 }

  predicate Floating(t: nat) { t == 6 || t == 12 }

  /** What the reader hands back. Floats keep their bit pattern; text is left as bytes. */
  datatype Value =
    | Num(n: int)
    | Float(bits: nat)
    | Bool(b: bool)
    | Text(s: Bytes)
    | Items(vals: seq<Value>)
    | Count(size: nat)

  function Unpack(t: nat, raw: nat): Value
    requires Width(t) > 0
  {
    if Floating(t) then Float(raw)
    else if Signed(t) && raw >= Pow256(Width(t)) / 2 then Num(raw - Pow256(Width(t)))
    else Num(raw)
  }

  // ------------------------------------------------------------------ reader --

  /** `taken` counts the array elements read in full, nested ones included. */
  datatype Parsed<+T> =
    | Ok(value: T, pos: nat, taken: nat)
    | Eof(taken: nat)
    | BadType(taken: nat)

  function Read(buf: Bytes, pos: nat, w: nat): (r: Parsed<nat>)
    ensures r.Ok? ==> r.pos == pos + w && r.pos <= |buf|
  {
    if pos + w > |buf| then Eof(0) else Ok(FromLittle(buf[pos..pos + w]), pos + w, 0)
  }

  function ReadText(buf: Bytes, pos: nat): (r: Parsed<Bytes>)
    ensures r.Ok? ==> pos + 8 <= r.pos <= |buf|
    ensures r.taken == 0
  {
    match Read(buf, pos, 8)
    case Ok(n, p, _) => if p + n > |buf| then Eof(0) else Ok(buf[p..p + n], p + n, 0)
    case _ => Eof(0)
  }

  function First(vals: seq<Value>, n: nat): (r: seq<Value>)
    ensures r <= vals && |r| == if |vals| <= n then |vals| else n
  {
    if |vals| <= n then vals else vals[..n]
  }

  function ReadValue(buf: Bytes, pos: nat, t: nat, keep: bool): (r: Parsed<Value>)
    requires pos <= |buf|
    ensures r.Ok? ==> pos < r.pos <= |buf| && r.taken < r.pos - pos
    ensures r.taken <= |buf| - pos
    decreases |buf| - pos, 1, 0
  {
    if Width(t) > 0 then
      match Read(buf, pos, Width(t))
      case Ok(raw, p, _) => Ok(Unpack(t, raw), p, 0)
      case _ => Eof(0)
    else if t == BOOL then
      match Read(buf, pos, 1)
      case Ok(raw, p, _) => Ok(Bool(raw != 0), p, 0)
      case _ => Eof(0)
    else if t == STR then
      match ReadText(buf, pos)
      case Ok(s, p, _) => Ok(Text(s), p, 0)
      case _ => Eof(0)
    else if t == ARR then
      var et := Read(buf, pos, 4);
      if !et.Ok? then Eof(0) else
      var n := Read(buf, et.pos, 8);
      if !n.Ok? then Eof(0) else
      match ReadItems(buf, n.pos, et.value, n.value)
      case Ok(vals, p, k) => Ok(if keep then Items(First(vals, KEPT_ITEMS)) else Count(n.value), p, k)
      case Eof(k) => Eof(k)
      case BadType(k) => BadType(k)
    else BadType(0)
  }

  /** n elements of one type, or as many as it takes to fail. Every element costs at least one
      byte, so the count declared in the file never matters. */
  function ReadItems(buf: Bytes, pos: nat, t: nat, n: nat): (r: Parsed<seq<Value>>)
    requires pos <= |buf|
    ensures r.Ok? ==> pos <= r.pos <= |buf| && r.taken <= r.pos - pos && |r.value| == n && n <= r.taken
    ensures r.taken <= |buf| - pos
    decreases |buf| - pos, 2, n
  {
    if n == 0 then Ok([], pos, 0) else
    match ReadValue(buf, pos, t, false)
    case Eof(k) => Eof(k)
    case BadType(k) => BadType(k)
    case Ok(v, p, k) =>
      match ReadItems(buf, p, t, n - 1)
      case Ok(vs, q, l) => Ok([v] + vs, q, 1 + k + l)
      case Eof(l) => Eof(1 + k + l)
      case BadType(l) => BadType(1 + k + l)
  }

  predicate Contains(s: Bytes, word: Bytes) {
    |word| <= |s| && (s[..|word|] == word || (s != [] && Contains(s[1..], word)))
  }

  predicate Keep(key: Bytes) { Contains(key, COMPRESS_RATIOS) }

  /** The bytes' weights: the first counts least. */
  function Weighed(b: Bytes): nat {
    if b == [] then 0
    else
      var n := |b| - 1;
      Weighed(b[..n]) + b[n] as nat * Pow256(n)
  }

  lemma {:induction false} WeighedFromFront(b: Bytes)
    requires b != []
    ensures Weighed(b) == b[0] as nat + 256 * Weighed(b[1..])
    decreases |b|
  {
    var n := |b| - 1;
    if n == 0 {
      assert b[..0] == [] && b[1..] == [];
    } else {
      WeighedFromFront(b[..n]);
      assert b[..n][1..] == b[1..][..n - 1];
      Weights(b[n] as nat, n);
    }
  }

  lemma Weights(x: nat, n: nat)
    requires n > 0
    ensures x * Pow256(n) == 256 * (x * Pow256(n - 1))
  {
    assert Pow256(n) == 256 * Pow256(n - 1);
  }

  lemma {:induction false} LittleIsWeighed(b: Bytes)
    ensures FromLittle(b) == Weighed(b)
    decreases |b|
  {
    if b == [] {
    } else {
      LittleIsWeighed(b[1..]);
      WeighedFromFront(b);
    }
  }

  /** A number's two's complement, by half of what its width can hold. */
  function Twos(n: nat, half: nat): int { if n < half then n else n - 2 * half }

  predicate ReadsAs(buf: Bytes, pos: nat, t: nat, w: nat, v: Value)
    requires pos <= |buf|
  {
    forall keep: bool :: ReadValue(buf, pos, t, keep) == Ok(v, pos + w, 0)
  }

  /** What the type codes of the format mean: 0, 2, 4 and 10 are unsigned integers of 1, 2, 4 and 8
      bytes; 1, 3, 5 and 11 signed ones; 6 and 12 floats of 4 and 8; 7 is a bool of one. */
  lemma ScalarsAre(buf: Bytes, pos: nat)
    requires pos + 8 <= |buf|
    ensures var b, h := Weighed(buf[pos..pos + 1]), Weighed(buf[pos..pos + 2]);
            var w, l := Weighed(buf[pos..pos + 4]), Weighed(buf[pos..pos + 8]);
            && ReadsAs(buf, pos, 0, 1, Num(b)) && ReadsAs(buf, pos, 1, 1, Num(Twos(b, 0x80)))
            && ReadsAs(buf, pos, 2, 2, Num(h)) && ReadsAs(buf, pos, 3, 2, Num(Twos(h, 0x8000)))
            && ReadsAs(buf, pos, 4, 4, Num(w)) && ReadsAs(buf, pos, 5, 4, Num(Twos(w, 0x8000_0000)))
            && ReadsAs(buf, pos, 10, 8, Num(l)) && ReadsAs(buf, pos, 11, 8, Num(Twos(l, 0x8000_0000_0000_0000)))
            && ReadsAs(buf, pos, 6, 4, Float(w)) && ReadsAs(buf, pos, 12, 8, Float(l))
            && ReadsAs(buf, pos, 7, 1, Bool(b != 0))
  {
    hide Weighed, FromLittle;
    Widths();
    LittleIsWeighed(buf[pos..pos + 1]);
    LittleIsWeighed(buf[pos..pos + 2]);
    LittleIsWeighed(buf[pos..pos + 4]);
    LittleIsWeighed(buf[pos..pos + 8]);
  }

  predicate WordAt(s: Bytes, word: Bytes, i: nat) { i + |word| <= |s| && s[i..i + |word|] == word }

  /** An array is kept exactly when its key has the word somewhere in it. */
  lemma {:induction false} KeepIff(key: Bytes)
    ensures Keep(key) <==> exists i :: 0 <= i < |key| && WordAt(key, COMPRESS_RATIOS, i)
  {
    ContainsIff(key, COMPRESS_RATIOS);
  }

  lemma {:induction false} ContainsIff(s: Bytes, word: Bytes)
    requires word != []
    ensures Contains(s, word) <==> exists i :: 0 <= i < |s| && WordAt(s, word, i)
    decreases |s|
  {
    if s == [] {
    } else {
      ContainsIff(s[1..], word);
      if s[..if |word| <= |s| then |word| else 0] == word {
        assert WordAt(s, word, 0);
      }
      if Contains(s[1..], word) {
        var i :| 0 <= i < |s[1..]| && WordAt(s[1..], word, i);
        assert s[i + 1..i + 1 + |word|] == s[1..][i..i + |word|];
        assert WordAt(s, word, i + 1);
      }
      if i :| 0 <= i < |s| && WordAt(s, word, i) {
        if i == 0 {
          assert s[0..|word|] == s[..|word|];
        } else {
          assert s[1..][i - 1..i - 1 + |word|] == s[i..i + |word|];
          assert WordAt(s[1..], word, i - 1);
        }
      }
    }
  }

  datatype Pair = Pair(key: Bytes, value: Value)

  function ReadPair(buf: Bytes, pos: nat): (r: Parsed<Pair>)
    requires pos <= |buf|
    ensures r.Ok? ==> pos < r.pos <= |buf| && r.taken < r.pos - pos
    ensures r.taken <= |buf| - pos
  {
    var k := ReadText(buf, pos);
    if !k.Ok? then Eof(0) else
    var t := Read(buf, k.pos, 4);
    if !t.Ok? then Eof(0) else
    match ReadValue(buf, t.pos, t.value, Keep(k.value))
    case Ok(v, p, n) => Ok(Pair(k.value, v), p, n)
    case Eof(n) => Eof(n)
    case BadType(n) => BadType(n)
  }

  /** The pairs read before the first failure, whether there was one, and the elements read. */
  datatype Pairs = Pairs(pairs: seq<Pair>, truncated: bool, taken: nat)

  function ReadPairs(buf: Bytes, pos: nat, n: nat): (r: Pairs)
    requires pos <= |buf|
    ensures |r.pairs| <= n
    ensures r.truncated <==> |r.pairs| < n
    ensures |r.pairs| + r.taken <= |buf| - pos
    decreases |buf| - pos
  {
    if n == 0 then Pairs([], false, 0) else
    match ReadPair(buf, pos)
    case Eof(k) => Pairs([], true, k)
    case BadType(k) => Pairs([], true, k)
    case Ok(p, q, k) =>
      var rest := ReadPairs(buf, q, n - 1);
      Pairs([p] + rest.pairs, rest.truncated, k + rest.taken)
  }

  /** The dictionary filled pair by pair: a later pair replaces an earlier one of its key. */
  function Fill(pairs: seq<Pair>): map<Bytes, Value> {
    if pairs == [] then map[]
    else
      var last := pairs[|pairs| - 1];
      Fill(pairs[..|pairs| - 1])[last.key := last.value]
  }

  /** Plainly: a key has the value of its last pair, and there are no other keys. */
  lemma {:induction false} FillIsLast(pairs: seq<Pair>, i: nat)
    requires i < |pairs| && forall j :: i < j < |pairs| ==> pairs[j].key != pairs[i].key
    ensures pairs[i].key in Fill(pairs) && Fill(pairs)[pairs[i].key] == pairs[i].value
    ensures forall key :: key in Fill(pairs) ==> exists j :: 0 <= j < |pairs| && pairs[j].key == key
    decreases |pairs|
  {
    var n := |pairs| - 1;
    FillKeys(pairs);
    if i < n {
      FillIsLast(pairs[..n], i);
    }
  }

  lemma {:induction false} FillKeys(pairs: seq<Pair>)
    ensures forall key :: key in Fill(pairs) ==> exists j :: 0 <= j < |pairs| && pairs[j].key == key
    decreases |pairs|
  {
    if pairs == [] {
    } else {
      var n := |pairs| - 1;
      FillKeys(pairs[..n]);
      forall key | key in Fill(pairs) ensures exists j :: 0 <= j < |pairs| && pairs[j].key == key {
        if key in Fill(pairs[..n]) {
          var j :| 0 <= j < n && pairs[..n][j].key == key;
          assert pairs[j].key == key;
        } else {
          assert pairs[n].key == key;
        }
      }
    }
  }

  function Meta(r: Pairs): map<Bytes, Value> {
    if r.truncated then Fill(r.pairs)[TRUNCATED := Bool(true)] else Fill(r.pairs)
  }

  /** The reader's result: None stands for the exception that escapes when the fixed header
      itself is cut short, since its three reads are outside the `try`. */
  function ReadHeader(buf: Bytes): Option<map<Bytes, Value>> {
    if |buf| < 4 || buf[..4] != MAGIC then Some(map[])
    else if |buf| < 24 then None
    else Some(Meta(ReadPairs(buf, 24, FromLittle(buf[16..24]))))
  }

  // -------------------------------------------------- the reader, as it loops --

  method GVal(buf: Bytes, pos: nat, t: nat, keepArray: bool) returns (r: Parsed<Value>)
    requires pos <= |buf|
    ensures r == ReadValue(buf, pos, t, keepArray)
    decreases |buf| - pos, 1
  {
    if Width(t) > 0 {
      var raw := Read(buf, pos, Width(t));
      if !raw.Ok? { return Eof(0); }
      return Ok(Unpack(t, raw.value), raw.pos, 0);
    }
    if t == BOOL {
      var raw := Read(buf, pos, 1);
      if !raw.Ok? { return Eof(0); }
      return Ok(Bool(raw.value != 0), raw.pos, 0);
    }
    if t == STR {
      var s := ReadText(buf, pos);
      if !s.Ok? { return Eof(0); }
      return Ok(Text(s.value), s.pos, 0);
    }
    if t != ARR { return BadType(0); }
    var et := Read(buf, pos, 4);
    if !et.Ok? { return Eof(0); }
    var n := Read(buf, et.pos, 8);
    if !n.Ok? { return Eof(0); }
    var items := GItems(buf, n.pos, et.value, n.value, keepArray);
    match items
    case Eof(k) => r := Eof(k);
    case BadType(k) => r := BadType(k);
    case Ok(vals, p, k) => r := Ok(if keepArray then Items(vals) else Count(n.value), p, k);
  }

  /** The element loop: only the first elements of a wanted array are kept. */
  method GItems(buf: Bytes, pos: nat, et: nat, n: nat, keepArray: bool) returns (r: Parsed<seq<Value>>)
    requires pos <= |buf|
    ensures var whole := ReadItems(buf, pos, et, n);
            r == if whole.Ok? then whole.(value := if keepArray then First(whole.value, KEPT_ITEMS) else []) else whole
    decreases |buf| - pos, 2
  {
    hide ReadValue, ReadItems, Resume;
    var vals: seq<Value> := [];
    ghost var all: seq<Value> := [];
    var p: nat, taken: nat := pos, 0;
    ghost var whole := ReadItems(buf, pos, et, n);
    ResumeNone(whole);
    var i := 0;
    while i < n
      invariant i <= n && pos <= p <= |buf|
      invariant |all| == i
      invariant vals == if keepArray then First(all, KEPT_ITEMS) else []
      invariant whole == Resume(all, taken, ReadItems(buf, p, et, n - i))
    {
      var v := GVal(buf, p, et, false);
      ResumeStep(buf, p, et, n - i, all, taken);
      if v.Eof? { return Eof(taken + v.taken); }
      if v.BadType? { return BadType(taken + v.taken); }
      if keepArray && i < KEPT_ITEMS {
        vals := vals + [v.value];
      }
      all := all + [v.value];
      taken := taken + 1 + v.taken;
      p := v.pos;
      i := i + 1;
    }
    ResumeDone(buf, p, et, all, taken);
    r := Ok(vals, p, taken);
  }

  /** A result with what was read before it put in front. */
  ghost function Resume(done: seq<Value>, taken: nat, rest: Parsed<seq<Value>>): Parsed<seq<Value>> {
    match rest
    case Ok(vs, p, k) => Ok(done + vs, p, taken + k)
    case Eof(k) => Eof(taken + k)
    case BadType(k) => BadType(taken + k)
  }

  lemma ResumeNone(rest: Parsed<seq<Value>>)
    ensures Resume([], 0, rest) == rest
  {
    if rest.Ok? {
      assert [] + rest.value == rest.value;
    }
  }

  lemma ResumeStep(buf: Bytes, p: nat, t: nat, n: nat, done: seq<Value>, taken: nat)
    requires p <= |buf| && n > 0
    ensures var v, whole := ReadValue(buf, p, t, false), Resume(done, taken, ReadItems(buf, p, t, n));
            match v
            case Ok(x, q, k) => whole == Resume(done + [x], taken + 1 + k, ReadItems(buf, q, t, n - 1))
            case Eof(k) => whole == Eof(taken + k)
            case BadType(k) => whole == BadType(taken + k)
  {
    hide ReadValue;
    var v := ReadValue(buf, p, t, false);
    if v.Ok? {
      var rest := ReadItems(buf, v.pos, t, n - 1);
      if rest.Ok? {
        assert done + ([v.value] + rest.value) == done + [v.value] + rest.value;
      }
    }
  }

  lemma ResumeDone(buf: Bytes, p: nat, t: nat, done: seq<Value>, taken: nat)
    requires p <= |buf|
    ensures Resume(done, taken, ReadItems(buf, p, t, 0)) == Ok(done, p, taken)
  {
    assert done + [] == done;
  }

  method GPair(buf: Bytes, pos: nat) returns (r: Parsed<Pair>)
    requires pos <= |buf|
    ensures r == ReadPair(buf, pos)
  {
    var k := ReadText(buf, pos);
    if !k.Ok? { return Eof(0); }
    var t := Read(buf, k.pos, 4);
    if !t.Ok? { return Eof(0); }
    var v := GVal(buf, t.pos, t.value, Keep(k.value));
    match v
    case Ok(val, p, n) => r := Ok(Pair(k.value, val), p, n);
    case Eof(n) => r := Eof(n);
    case BadType(n) => r := BadType(n);
  }

  method ParseHeader(buf: Bytes) returns (r: Option<map<Bytes, Value>>)
    ensures r == ReadHeader(buf)
  {
    if |buf| < 4 || buf[..4] != MAGIC {
      return Some(map[]);
    }
    var version := Read(buf, 4, 4);
    if !version.Ok? { return None; }
    var tensors := Read(buf, version.pos, 8);
    if !tensors.Ok? { return None; }
    var n := Read(buf, tensors.pos, 8);
    if !n.Ok? { return None; }
    var meta := ReadMeta(buf, n.pos, n.value);
    r := Some(meta);
  }

  /** The key-value loop, inside its `try`. */
  method ReadMeta(buf: Bytes, start: nat, n: nat) returns (meta: map<Bytes, Value>)
    requires start <= |buf|
    ensures meta == Meta(ReadPairs(buf, start, n))
  {
    hide ReadPair;
    meta := map[];
    ghost var pairs: seq<Pair> := [];
    ghost var whole := ReadPairs(buf, start, n);
    var pos: nat, i := start, 0;
    while i < n
      invariant i <= n && pos <= |buf|
      invariant meta == Fill(pairs)
      invariant whole.pairs == pairs + ReadPairs(buf, pos, n - i).pairs
      invariant whole.truncated == ReadPairs(buf, pos, n - i).truncated
    {
      var pair := GPair(buf, pos);
      if !pair.Ok? {
        assert whole.pairs == pairs;
        return meta[TRUNCATED := Bool(true)];
      }
      ghost var later := ReadPairs(buf, pair.pos, n - i - 1).pairs;
      assert pairs + ([pair.value] + later) == pairs + [pair.value] + later;
      assert (pairs + [pair.value])[..|pairs|] == pairs;
      meta := meta[pair.value.key := pair.value.value];
      pairs := pairs + [pair.value];
      pos := pair.pos;
      i := i + 1;
    }
    assert whole.pairs == pairs;
  }

  // ------------------------------------------------------------------ writer --

  /** A value as a model file holds it. */
  datatype Item =
    | Whole(t: nat, n: int)
    | Real(t: nat, bits: nat)
    | Flag(b: bool)
    | Word(s: Bytes)
    | Array(t: nat, items: seq<Item>)

  function Tag(v: Item): nat {
    match v
    case Whole(t, _) => t
    case Real(t, _) => t
    case Flag(_) => BOOL
    case Word(_) => STR
    case Array(_, _) => ARR
  }

  const U32 := 0x1_0000_0000
  const U64 := 0x1_0000_0000_0000_0000

  predicate InRange(t: nat, n: int) {
    if Signed(t) then -(Pow256(Width(t)) / 2) <= n < Pow256(Width(t)) / 2 else 0 <= n < Pow256(Width(t))
  }

  predicate WellFormed(v: Item) {
    match v
    case Whole(t, n) => Width(t) > 0 && !Floating(t) && InRange(t, n)
    case Real(t, bits) => Floating(t) && bits < Pow256(Width(t))
    case Flag(_) => true
    case Word(s) => |s| < U64
    case Array(t, items) => t < U32 && |items| < U64 && forall e :: e in items ==> WellFormed(e) && Tag(e) == t
  }

  function WriteText(s: Bytes): Bytes { Little(8, |s|) + s }

  function Write(v: Item): Bytes
    decreases v, 0
  {
    match v
    case Whole(t, n) => Little(Width(t), if n < 0 then UnsignedOf(t, n) else n)
    case Real(t, bits) => Little(Width(t), bits)
    case Flag(b) => [if b then 1 else 0]
    case Word(s) => WriteText(s)
    case Array(t, items) => Little(4, t) + (Little(8, |items|) + WriteItems(items))
  }

  /** The two's complement of a negative number, in the type's width. */
  function UnsignedOf(t: nat, n: int): nat {
    if n + Pow256(Width(t)) >= 0 then n + Pow256(Width(t)) else 0
  }

  function WriteItems(items: seq<Item>): Bytes
    decreases items, 1
  {
    if items == [] then [] else Write(items[0]) + WriteItems(items[1..])
  }

  /** What a reader is meant to see: an array nobody asked for becomes its size. */
  function Show(v: Item, keep: bool): Value
    decreases v, 0
  {
    match v
    case Whole(_, n) => Num(n)
    case Real(_, bits) => Float(bits)
    case Flag(b) => Bool(b)
    case Word(s) => Text(s)
    case Array(_, items) => if keep then Items(First(ShowItems(items), KEPT_ITEMS)) else Count(|items|)
  }

  function ShowItems(items: seq<Item>): seq<Value>
    decreases items, 1
  {
    if items == [] then [] else [Show(items[0], false)] + ShowItems(items[1..])
  }

  datatype Entry = Entry(key: Bytes, value: Item)

  predicate Sound(e: Entry) { |e.key| < U64 && WellFormed(e.value) }

  function WriteEntry(e: Entry): Bytes {
    WriteText(e.key) + (Little(4, Tag(e.value)) + Write(e.value))
  }

  function WriteEntries(es: seq<Entry>): Bytes {
    if es == [] then [] else WriteEntry(es[0]) + WriteEntries(es[1..])
  }

  function ShowEntries(es: seq<Entry>): seq<Pair> {
    if es == [] then []
    else [Pair(es[0].key, Show(es[0].value, Keep(es[0].key)))] + ShowEntries(es[1..])
  }

  function WriteFile(version: nat, tensors: nat, es: seq<Entry>): Bytes {
    MAGIC + Little(4, version) + Little(8, tensors) + Little(8, |es|) + WriteEntries(es)
  }

  // -------------------------------------------------------------- round trip --

  /** buf holds s at pos. */
  predicate At(buf: Bytes, pos: nat, s: Bytes) {
    pos + |s| <= |buf| && buf[pos..pos + |s|] == s
  }

  lemma AtSplit(buf: Bytes, pos: nat, a: Bytes, b: Bytes)
    requires At(buf, pos, a + b)
    ensures At(buf, pos, a) && At(buf, pos + |a|, b)
  {
    var s := buf[pos..pos + |a| + |b|];
    assert s[..|a|] == a && s[|a|..] == b;
  }

  lemma Widths()
    ensures Pow256(1) == 0x100 && Pow256(2) == 0x1_0000 && Pow256(4) == U32 && Pow256(8) == U64
  {
    assert Pow256(3) == 0x100_0000 && Pow256(4) == U32;
    assert Pow256(5) == 0x100_0000_0000 && Pow256(6) == 0x1_0000_0000_0000 && Pow256(7) == 0x100_0000_0000_0000;
  }

  lemma ReadBack(buf: Bytes, pos: nat, w: nat, n: nat)
    requires n < Pow256(w) && At(buf, pos, Little(w, n))
    ensures Read(buf, pos, w) == Ok(n, pos + w, 0)
  {
    LittleRoundTrip(w, n);
  }

  lemma ReadBackText(buf: Bytes, pos: nat, s: Bytes)
    requires |s| < U64 && At(buf, pos, WriteText(s))
    ensures ReadText(buf, pos) == Ok(s, pos + |WriteText(s)|, 0)
  {
    AtSplit(buf, pos, Little(8, |s|), s);
    Widths();
    ReadBack(buf, pos, 8, |s|);
  }

  /** Reading inverts writing, for a value anywhere in a buffer. */
  lemma {:induction false} ReadInvertsWrite(buf: Bytes, pos: nat, v: Item, keep: bool)
    requires WellFormed(v) && At(buf, pos, Write(v))
    ensures var r := ReadValue(buf, pos, Tag(v), keep);
            r.Ok? && r.value == Show(v, keep) && r.pos == pos + |Write(v)|
    decreases v, 0
  {
    Widths();
    match v
    case Whole(t, n) =>
      ReadBack(buf, pos, Width(t), if n < 0 then UnsignedOf(t, n) else n);
    case Real(t, bits) =>
      ReadBack(buf, pos, Width(t), bits);
    case Flag(b) =>
      assert buf[pos..pos + 1] == [if b then 1 else 0];
      assert FromLittle([if b then 1 else 0]) == if b then 1 else 0;
    case Word(s) =>
      ReadBackText(buf, pos, s);
    case Array(t, items) =>
      AtSplit(buf, pos, Little(4, t), Little(8, |items|) + WriteItems(items));
      AtSplit(buf, pos + 4, Little(8, |items|), WriteItems(items));
      ReadBack(buf, pos, 4, t);
      ReadBack(buf, pos + 4, 8, |items|);
      ReadInvertsWriteItems(buf, pos + 12, t, items);
  }

  lemma {:induction false} ReadInvertsWriteItems(buf: Bytes, pos: nat, t: nat, items: seq<Item>)
    requires forall e :: e in items ==> WellFormed(e) && Tag(e) == t
    requires At(buf, pos, WriteItems(items))
    ensures var r := ReadItems(buf, pos, t, |items|);
            r.Ok? && r.value == ShowItems(items) && r.pos == pos + |WriteItems(items)|
    decreases items, 1
  {
    hide ReadValue, Write, Show, WellFormed, At;
    if items == [] {
    } else {
      AtSplit(buf, pos, Write(items[0]), WriteItems(items[1..]));
      ReadInvertsWrite(buf, pos, items[0], false);
      ReadInvertsWriteItems(buf, pos + |Write(items[0])|, t, items[1..]);
    }
  }

  lemma TagsFit(v: Item)
    requires WellFormed(v)
    ensures Tag(v) < U32
  {
  }

  lemma ReadBackEntry(buf: Bytes, pos: nat, e: Entry)
    requires Sound(e) && At(buf, pos, WriteEntry(e))
    ensures var r := ReadPair(buf, pos);
            r.Ok? && r.value == Pair(e.key, Show(e.value, Keep(e.key))) && r.pos == pos + |WriteEntry(e)|
  {
    hide ReadValue, Show, Write, WellFormed, Keep, Little, At;
    var tag := Little(4, Tag(e.value));
    AtSplit(buf, pos, WriteText(e.key), tag + Write(e.value));
    AtSplit(buf, pos + |WriteText(e.key)|, tag, Write(e.value));
    Widths();
    TagsFit(e.value);
    ReadBackText(buf, pos, e.key);
    ReadBack(buf, pos + |WriteText(e.key)|, 4, Tag(e.value));
    ReadInvertsWrite(buf, pos + |WriteText(e.key)| + 4, e.value, Keep(e.key));
  }

  // ------------------------------------------------------- truncated prefixes --

  lemma LongerRead(buf: Bytes, more: Bytes, pos: nat, w: nat)
    requires buf <= more && Read(buf, pos, w).Ok?
    ensures Read(more, pos, w) == Read(buf, pos, w)
  {
    assert more[pos..pos + w] == buf[pos..pos + w];
  }

  lemma LongerText(buf: Bytes, more: Bytes, pos: nat)
    requires buf <= more && ReadText(buf, pos).Ok?
    ensures ReadText(more, pos) == ReadText(buf, pos)
  {
    LongerRead(buf, more, pos, 8);
    var n := Read(buf, pos, 8);
    assert more[n.pos..n.pos + n.value] == buf[n.pos..n.pos + n.value];
  }

  lemma {:induction false} LongerValue(buf: Bytes, more: Bytes, pos: nat, t: nat, keep: bool)
    requires pos <= |buf| && buf <= more && ReadValue(buf, pos, t, keep).Ok?
    ensures ReadValue(more, pos, t, keep) == ReadValue(buf, pos, t, keep)
    decreases |buf| - pos, 1, 0
  {
    if Width(t) > 0 {
      LongerRead(buf, more, pos, Width(t));
    } else if t == BOOL {
      LongerRead(buf, more, pos, 1);
    } else if t == STR {
      LongerText(buf, more, pos);
    } else {
      LongerRead(buf, more, pos, 4);
      LongerRead(buf, more, pos + 4, 8);
      LongerItems(buf, more, pos + 12, Read(buf, pos, 4).value, Read(buf, pos + 4, 8).value);
    }
  }

  lemma {:induction false} LongerItems(buf: Bytes, more: Bytes, pos: nat, t: nat, n: nat)
    requires pos <= |buf| && buf <= more && ReadItems(buf, pos, t, n).Ok?
    ensures ReadItems(more, pos, t, n) == ReadItems(buf, pos, t, n)
    decreases |buf| - pos, 2, n
  {
    if n == 0 {
    } else {
      LongerValue(buf, more, pos, t, false);
      LongerItems(buf, more, ReadValue(buf, pos, t, false).pos, t, n - 1);
    }
  }

  lemma LongerPair(buf: Bytes, more: Bytes, pos: nat)
    requires pos <= |buf| && buf <= more && ReadPair(buf, pos).Ok?
    ensures ReadPair(more, pos) == ReadPair(buf, pos)
  {
    var k := ReadText(buf, pos);
    LongerText(buf, more, pos);
    LongerRead(buf, more, k.pos, 4);
    var t := Read(buf, k.pos, 4);
    LongerValue(buf, more, t.pos, t.value, Keep(k.value));
  }

  /** Whatever a prefix of a file yields, the whole file yields first, be the file well-formed
      or not. */
  lemma {:induction false} PrefixReadsPrefix(buf: Bytes, more: Bytes, pos: nat, n: nat)
    requires pos <= |buf| && buf <= more
    ensures ReadPairs(buf, pos, n).pairs <= ReadPairs(more, pos, n).pairs
    decreases |buf| - pos
  {
    hide ReadValue, ReadPair;
    if n > 0 && ReadPair(buf, pos).Ok? {
      LongerPair(buf, more, pos);
      PrefixReadsPrefix(buf, more, ReadPair(buf, pos).pos, n - 1);
    }
  }

  /** How many of the entries written from pos on end at or before a cut. */
  function Fitting(es: seq<Entry>, pos: nat, cut: nat): (k: nat)
    ensures k <= |es|
  {
    if es == [] || pos + |WriteEntry(es[0])| > cut then 0
    else 1 + Fitting(es[1..], pos + |WriteEntry(es[0])|, cut)
  }

  lemma AtCut(buf: Bytes, cut: nat, pos: nat, s: Bytes)
    requires At(buf, pos, s) && pos + |s| <= cut <= |buf|
    ensures At(buf[..cut], pos, s)
  {
  }

  lemma {:induction false} CutEntries(buf: Bytes, pos: nat, es: seq<Entry>, cut: nat)
    requires forall e :: e in es ==> Sound(e)
    requires At(buf, pos, WriteEntries(es)) && pos <= cut <= |buf|
    ensures ReadPairs(buf[..cut], pos, |es|).pairs == ShowEntries(es[..Fitting(es, pos, cut)])
    decreases |es|
  {
    hide ReadPair, WriteEntry, Show, Sound, Keep, At;
    if es == [] {
    } else {
      var head := WriteEntry(es[0]);
      AtSplit(buf, pos, head, WriteEntries(es[1..]));
      ReadBackEntry(buf, pos, es[0]);
      if ReadPair(buf[..cut], pos).Ok? {
        LongerPair(buf[..cut], buf, pos);
      }
      if pos + |head| <= cut {
        AtCut(buf, cut, pos, head);
        ReadBackEntry(buf[..cut], pos, es[0]);
        CutEntries(buf, pos + |head|, es[1..], cut);
        var k := Fitting(es, pos, cut);
        assert es[..k][0] == es[0] && es[..k][1..] == es[1..][..k - 1];
      }
    }
  }

  /** The main result. A file cut anywhere after its 24-byte header reads as exactly the entries
      that lie before the cut, marked as truncated unless they are all there. */
  lemma CutFileReadsWholeEntries(version: nat, tensors: nat, es: seq<Entry>, rest: Bytes, cut: nat)
    requires |es| < U64 && forall e :: e in es ==> Sound(e)
    requires 24 <= cut <= |WriteFile(version, tensors, es) + rest|
    ensures var k := Fitting(es, 24, cut);
            var read := ReadHeader((WriteFile(version, tensors, es) + rest)[..cut]);
            read.Some? && read.value ==
            if k == |es| then Fill(ShowEntries(es)) else Fill(ShowEntries(es[..k]))[TRUNCATED := Bool(true)]
  {
    hide ReadPairs, WriteEntries, Fitting, ShowEntries, Sound;
    var buf := WriteFile(version, tensors, es) + rest;
    var k := Fitting(es, 24, cut);
    assert buf[..4] == MAGIC && buf[16..24] == Little(8, |es|);
    assert buf[..cut][..4] == MAGIC && buf[..cut][16..24] == Little(8, |es|);
    assert At(buf, 24, WriteEntries(es));
    Widths();
    LittleRoundTrip(8, |es|);
    CutEntries(buf, 24, es, cut);
    ShowEntriesLength(es[..k]);
    assert es[..|es|] == es;
  }

  lemma {:induction false} ShowEntriesLength(es: seq<Entry>)
    ensures |ShowEntries(es)| == |es|
  {
    if es == [] {
    } else {
      ShowEntriesLength(es[1..]);
    }
  }

  lemma {:induction false} AllFit(es: seq<Entry>, pos: nat, cut: nat)
    ensures Fitting(es, pos, cut) == |es| <==> es == [] || pos + |WriteEntries(es)| <= cut
  {
    if es == [] {
    } else {
      AllFit(es[1..], pos + |WriteEntry(es[0])|, cut);
    }
  }

  /** Reading inverts writing, whatever follows the entries in the file. */
  lemma FileRoundTrip(version: nat, tensors: nat, es: seq<Entry>, rest: Bytes)
    requires |es| < U64 && forall e :: e in es ==> Sound(e)
    ensures ReadHeader(WriteFile(version, tensors, es) + rest) == Some(Fill(ShowEntries(es)))
  {
    hide ReadHeader, Little, WriteEntry, Write, Fill, ShowEntries;
    var buf := WriteFile(version, tensors, es) + rest;
    assert |buf| == 24 + |WriteEntries(es)| + |rest|;
    AllFit(es, 24, |buf|);
    CutFileReadsWholeEntries(version, tensors, es, rest, |buf|);
    assert buf[..|buf|] == buf;
  }
}
