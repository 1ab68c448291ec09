/** The slim-tick protocol: the server sends each page only the sections of the snapshot whose
    digest changed (snapshot.py, monitor.py, api.py) and the page puts the rest back from its
    own copy (static/js/data.js). */
module SlimTicks {

  import opened Basics

  /** A JSON value; Undefined is what JavaScript reads where nothing is, and is never sent. */
  datatype Json =
    | Undefined
    | Null
    | Flag(b: bool)
    | Number(digits: string)
    | Text(s: string)
    | List(items: seq<Json>)
    | Obj(fields: map<string, Json>)

  type Snap = map<string, Json>

  datatype Path = Top(key: string) | Sub(key: string, sub: string)

  const SLIM_PATHS: seq<Path> := [
    Sub("journal", "requests"), Sub("journal", "events"), Top("ipmi_sensors"), Top("sel"), Top("arch"),
    Top("static"), Top("llm_ct"), Top("units"), Top("guests"), Top("disks"), Top("stats"), Top("xid"),
    Top("gpu_procs"), Top("spec_positions"), Top("probe_signature"), Top("last"), Top("slots"),
    Top("totals"), Top("model")
  ]

  /** Neither path is the other or leads to it. */
  predicate Apart(p: Path, q: Path) {
    p.key != q.key || (p.Sub? && q.Sub? && p.sub != q.sub)
  }

  predicate AllApart(paths: seq<Path>) {
    forall i, j :: 0 <= i < j < |paths| ==> Apart(paths[i], paths[j])
  }

  /** blake2b over the serialised section: any function here. That it has no collisions is a
      hypothesis of the theorems. */
  type Digest = Json -> nat

  type Sigs = map<Path, nat>

  ghost predicate Injective(h: Digest) {
    forall a, b :: h(a) == h(b) ==> a == b
  }

  // ------------------------------------------------------------------ server --

  function Section(snap: Snap, p: Path): Option<Json> {
    if p.key !in snap then None
    else if p.Top? then Some(snap[p.key])
    else if snap[p.key].Obj? && p.sub in snap[p.key].fields then Some(snap[p.key].fields[p.sub])
    else None
  }

  function SigsOf(paths: seq<Path>, h: Digest, snap: Snap): Sigs {
    map p | p in paths && Section(snap, p).Some? :: h(Section(snap, p).value)
  }

  method SectionSigs(paths: seq<Path>, h: Digest, snap: Snap) returns (sigs: Sigs)
    ensures sigs == SigsOf(paths, h, snap)
  {
    sigs := map[];
    for i := 0 to |paths|
      invariant sigs == SigsOf(paths[..i], h, snap)
    {
      var v := Section(snap, paths[i]);
      if v.Some? {
        sigs := sigs[paths[i] := h(v.value)];
      }
    }
    assert paths[..|paths|] == paths;
  }

  /** The sections a client already holds unchanged, in the order of the paths. */
  function Kept(paths: seq<Path>, sigs: Sigs, known: Sigs): (kept: seq<Path>)
    ensures forall p :: p in kept <==> p in paths && p in sigs && p in known && known[p] == sigs[p]
  {
    if paths == [] then []
    else
      var rest := Kept(paths[1..], sigs, known);
      var p := paths[0];
      if p in sigs && p in known && known[p] == sigs[p] then [p] + rest else rest
  }

  lemma {:induction false} KeptApart(paths: seq<Path>, sigs: Sigs, known: Sigs)
    requires AllApart(paths)
    ensures AllApart(Kept(paths, sigs, known))
  {
    if paths == [] {
    } else {
      KeptApart(paths[1..], sigs, known);
      forall q | q in Kept(paths[1..], sigs, known) ensures Apart(paths[0], q) {
        var j :| 0 <= j < |paths[1..]| && paths[1..][j] == q;
        assert paths[j + 1] == q;
      }
    }
  }

  /** The snapshot without one section. */
  function Without(snap: Snap, p: Path): Snap {
    if p.Top? then snap - {p.key}
    else if p.key in snap && snap[p.key].Obj? then snap[p.key := Obj(snap[p.key].fields - {p.sub})]
    else snap
  }

  function WithoutAll(snap: Snap, paths: seq<Path>): Snap {
    if paths == [] then snap else Without(WithoutAll(snap, paths[..|paths| - 1]), paths[|paths| - 1])
  }

  // -------------------------------------------------------------------- page --

  /** prev[top] or prev[top]?.[sub], as JavaScript reads it. */
  function Carried(prev: Snap, p: Path): Json {
    Section(prev, p).Or(Undefined)
  }

  function PutBack(snap: Snap, prev: Snap, p: Path): Snap {
    if p.Top? then snap[p.key := Carried(prev, p)]
    else
      var part := if p.key in snap && snap[p.key].Obj? then snap[p.key].fields else map[];
      snap[p.key := Obj(part[p.sub := Carried(prev, p)])]
  }

  function PutAllBack(snap: Snap, prev: Snap, paths: seq<Path>): Snap {
    if paths == [] then snap else PutBack(PutAllBack(snap, prev, paths[..|paths| - 1]), prev, paths[|paths| - 1])
  }

  method MergeKept(received: Snap, kept: seq<Path>, prev: Snap) returns (snap: Snap)
    ensures snap == PutAllBack(received, prev, kept)
  {
    snap := received;
    for i := 0 to |kept|
      invariant snap == PutAllBack(received, prev, kept[..i])
    {
      assert kept[..i + 1][..i] == kept[..i];
      snap := PutBack(snap, prev, kept[i]);
    }
    assert kept[..|kept|] == kept;
  }

  // ------------------------------------------------- slimming and merging undo --

  lemma PutBackWithout(snap: Snap, prev: Snap, p: Path, q: Path)
    requires Apart(p, q)
    ensures PutBack(Without(snap, p), prev, q) == Without(PutBack(snap, prev, q), p)
  {
    if p.key == q.key {
      var part := if p.key in snap && snap[p.key].Obj? then snap[p.key].fields else map[];
      assert (part - {p.sub})[q.sub := Carried(prev, q)] == part[q.sub := Carried(prev, q)] - {p.sub};
    }
  }

  lemma {:induction false} PutAllBackWithout(snap: Snap, prev: Snap, p: Path, paths: seq<Path>)
    requires forall q :: q in paths ==> Apart(p, q)
    ensures PutAllBack(Without(snap, p), prev, paths) == Without(PutAllBack(snap, prev, paths), p)
  {
    if paths == [] {
    } else {
      var front, q := paths[..|paths| - 1], paths[|paths| - 1];
      PutAllBackWithout(snap, prev, p, front);
      PutBackWithout(PutAllBack(snap, prev, front), prev, p, q);
    }
  }

  lemma SectionWithout(snap: Snap, p: Path, q: Path)
    requires Apart(p, q)
    ensures Section(Without(snap, q), p) == Section(snap, p)
  {
    if p.key == q.key && p.key in snap && snap[p.key].Obj? {
      assert p.sub in snap[p.key].fields <==> p.sub in snap[p.key].fields - {q.sub};
    }
  }

  lemma {:induction false} SectionWithoutAll(snap: Snap, paths: seq<Path>, p: Path)
    requires forall q :: q in paths ==> Apart(p, q)
    ensures Section(WithoutAll(snap, paths), p) == Section(snap, p)
  {
    if paths == [] {
    } else {
      SectionWithoutAll(snap, paths[..|paths| - 1], p);
      SectionWithout(WithoutAll(snap, paths[..|paths| - 1]), p, paths[|paths| - 1]);
    }
  }

  lemma {:induction false} SectionPutBack(snap: Snap, prev: Snap, paths: seq<Path>, p: Path)
    requires AllApart(paths) && p in paths
    ensures Section(PutAllBack(snap, prev, paths), p) == Some(Carried(prev, p))
  {
    var front, q := paths[..|paths| - 1], paths[|paths| - 1];
    if p != q {
      SectionPutBack(snap, prev, front, p);
      var i :| 0 <= i < |front| && front[i] == p;
      assert Apart(paths[i], q);
    }
  }

  /** Every path leads somewhere, to a value that can be sent. */
  predicate Present(snap: Snap, paths: seq<Path>) {
    forall p :: p in paths ==> Section(snap, p).Some? && !Section(snap, p).value.Undefined?
  }

  lemma {:induction false} MergeRestores(cur: Snap, prev: Snap, kept: seq<Path>)
    requires AllApart(kept) && Present(cur, kept)
    requires forall p :: p in kept ==> Section(prev, p) == Section(cur, p)
    ensures PutAllBack(WithoutAll(cur, kept), prev, kept) == cur
  {
    if kept == [] {
    } else {
      var front, p := kept[..|kept| - 1], kept[|kept| - 1];
      PutAllBackWithout(WithoutAll(cur, front), prev, p, front);
      MergeRestores(cur, prev, front);
      assert Section(prev, p) == Section(cur, p);
      if p.Sub? {
        var part := cur[p.key].fields;
        assert (part - {p.sub})[p.sub := part[p.sub]] == part;
      }
    }
  }

  lemma {:induction false} LeftOut(snap: Snap, paths: seq<Path>, p: Path)
    requires AllApart(paths) && p in paths
    ensures Section(WithoutAll(snap, paths), p).None?
  {
    var front, q := paths[..|paths| - 1], paths[|paths| - 1];
    if p != q {
      LeftOut(snap, front, p);
      var i :| 0 <= i < |front| && front[i] == p;
      assert Apart(paths[i], q);
      SectionWithout(WithoutAll(snap, front), p, q);
    }
  }

  /** A tick leaves out exactly the sections that have not changed, and carries the others as they
      are. */
  lemma OnlyChangesTravel(paths: seq<Path>, h: Digest, cur: Snap, prev: Snap, p: Path)
    requires AllApart(paths) && Injective(h) && p in paths
    ensures var kept := Kept(paths, SigsOf(paths, h, cur), SigsOf(paths, h, prev));
            var same := Section(cur, p).Some? && Section(prev, p) == Section(cur, p);
            && (p in kept <==> same)
            && Section(WithoutAll(cur, kept), p) == if same then None else Section(cur, p)
  {
    var sigs, known := SigsOf(paths, h, cur), SigsOf(paths, h, prev);
    var kept := Kept(paths, sigs, known);
    KeptApart(paths, sigs, known);
    if p in kept {
      LeftOut(cur, kept, p);
    } else {
      forall q | q in kept ensures Apart(p, q) {
        var i, j :| 0 <= i < |paths| && paths[i] == p && 0 <= j < |paths| && paths[j] == q;
        assert i < j ==> Apart(paths[i], paths[j]);
        assert j < i ==> Apart(paths[j], paths[i]);
      }
      SectionWithoutAll(cur, kept, p);
    }
  }

  /** What the page makes of a slimmed snapshot is the snapshot itself if and only if every
      section left out is the one the page holds. */
  lemma MergeAgreesIff(cur: Snap, prev: Snap, kept: seq<Path>)
    requires AllApart(kept) && Present(cur, kept)
    ensures PutAllBack(WithoutAll(cur, kept), prev, kept) == cur
       <==> forall p :: p in kept ==> Section(prev, p) == Section(cur, p)
  {
    var merged := PutAllBack(WithoutAll(cur, kept), prev, kept);
    if merged == cur {
      forall p | p in kept ensures Section(prev, p) == Section(cur, p) {
        SectionPutBack(WithoutAll(cur, kept), prev, kept, p);
      }
    } else if forall p :: p in kept ==> Section(prev, p) == Section(cur, p) {
      MergeRestores(cur, prev, kept);
    }
  }

  // ------------------------------------------- slim_snapshot on shared objects --

  /** A dictionary inside the snapshot, which other snapshots may refer to. */
  class JsonDict {
    var fields: map<string, Json>

    constructor (fields: map<string, Json>)
      ensures this.fields == fields
    {
      this.fields := fields;
    }
  }

  datatype Entry = Plain(v: Json) | Nested(d: JsonDict)

  class SnapDict {
    var fields: map<string, Entry>

    constructor (fields: map<string, Entry>)
      ensures this.fields == fields
    {
      this.fields := fields;
    }

    ghost function Parts(): set<object>
      reads this
    {
      set k | k in fields && fields[k].Nested? :: fields[k].d as object
    }

    ghost predicate Valid()
      reads this
    {
      forall k :: k in fields && fields[k].Plain? ==> !fields[k].v.Obj?
    }

    ghost function View(): Snap
      reads this, Parts()
    {
      map k | k in fields :: match fields[k] case Plain(v) => v case Nested(d) => Obj(d.fields)
    }
  }

  lemma KeptStillThere(paths: seq<Path>, h: Digest, snap: Snap, known: Sigs, kept: seq<Path>, i: nat)
    requires AllApart(paths) && kept == Kept(paths, SigsOf(paths, h, snap), known) && i < |kept|
    ensures Section(WithoutAll(snap, kept[..i]), kept[i]).Some?
  {
    KeptApart(paths, SigsOf(paths, h, snap), known);
    var p := kept[i];
    forall q | q in kept[..i] ensures Apart(p, q) {
      var j :| 0 <= j < i && kept[j] == q;
      assert Apart(kept[j], kept[i]);
    }
    SectionWithoutAll(snap, kept[..i], p);
    assert p in SigsOf(paths, h, snap);
  }

  /** Takes one section out of a tick under construction; a dictionary it is taken from is
      copied first. */
  method DropSection(out: SnapDict, p: Path)
    requires out.Valid() && Section(out.View(), p).Some?
    modifies out
    ensures out.Valid() && out.View() == Without(old(out.View()), p)
    ensures forall d :: d in out.Parts() ==> d in old(out.Parts()) || fresh(d)
  {
    ghost var before := out.View();
    if p.Sub? {
      var part := new JsonDict(out.fields[p.key].d.fields - {p.sub});
      out.fields := out.fields[p.key := Nested(part)];
    } else {
      out.fields := out.fields - {p.key};
    }
    assert out.View() == Without(before, p);
  }

  /** Builds the tick for one client. It writes to no object it was given: the snapshot is shared
      with every client, and so are the sections that stay in the result. */
  method SlimSnapshot(paths: seq<Path>, h: Digest, snap: SnapDict, sigs: Sigs, known: Sigs)
    returns (out: SnapDict, kept: seq<Path>)
    requires AllApart(paths) && snap.Valid()
    requires sigs == SigsOf(paths, h, snap.View())
    ensures kept == Kept(paths, sigs, known)
    ensures out.Valid() && out.View() == WithoutAll(snap.View(), kept)
    ensures if kept == [] then out == snap else fresh(out)
    ensures snap.fields == old(snap.fields) && snap.View() == old(snap.View())
  {
    hide SigsOf, WithoutAll, Section, AllApart, Kept;
    kept := Kept(paths, sigs, known);
    ghost var full := snap.View();
    if kept == [] {
      WithoutNone(full);
      return snap, [];
    }
    out := CopyOf(snap);
    DropAll(paths, h, out, full, known, kept);
    assert snap.View() == full;
  }

  /** dict(snap): another dictionary over the same sections. */
  method CopyOf(snap: SnapDict) returns (out: SnapDict)
    requires snap.Valid()
    ensures fresh(out) && out.fields == snap.fields && out.Valid() && out.View() == snap.View()
  {
    out := new SnapDict(snap.fields);
  }

  lemma WithoutNone(snap: Snap)
    ensures WithoutAll(snap, []) == snap
  {
  }

  /** The loop over the kept sections, on the copy. */
  method DropAll(paths: seq<Path>, h: Digest, out: SnapDict, ghost full: Snap, ghost known: Sigs, kept: seq<Path>)
    requires AllApart(paths) && out.Valid() && out.View() == full && kept == Kept(paths, SigsOf(paths, h, full), known)
    modifies out
    ensures out.Valid() && out.View() == WithoutAll(full, kept)
  {
    hide SigsOf, Without, Section, AllApart, Kept;
    for i := 0 to |kept|
      invariant out.Valid() && out.View() == WithoutAll(full, kept[..i])
    {
      assert kept[..i + 1][..i] == kept[..i];
      KeptStillThere(paths, h, full, known, kept, i);
      DropSection(out, kept[i]);
    }
    assert kept[..|kept|] == kept;
  }
}
