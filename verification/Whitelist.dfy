/**
 The read-endpoint whitelist of `internal/commands/read_dispatcher.go`.

 Each of the fourteen regular expressions is anchored and is a path of
 slash-separated segments.  A segment is fixed text or one of the three
 sub-expressions the list uses.  `Accepts` gives the language of a
 concatenation of such atoms by cutting the string in every possible way, as
 a regular expression does; `Classify` decides the same question by splitting
 the path at its slashes and looking at the segments.
 */
module Whitelist {
  import opened Common

  datatype Atom =
    | Text(text: string)
    | NotSlashes            // [^/]+
    | Digits                // \d+
    | GuestKind             // (qemu|lxc)

  predicate AllDigits(w: string) { w != "" && Decimal(w) }

  /** The language of one atom. */
  predicate AtomAccepts(a: Atom, w: string) {
    match a
    case Text(t) => w == t
    case NotSlashes => w != "" && '/' !in w
    case Digits => AllDigits(w)
    case GuestKind => w == "qemu" || w == "lxc"
  }

  /** The four atoms, spelled out. */
  lemma AtomExact(w: string, text: string)
    ensures AtomAccepts(Text(text), w) <==> w == text
    ensures AtomAccepts(NotSlashes, w) <==> |w| > 0 && forall i :: 0 <= i < |w| ==> w[i] != '/'
    ensures AtomAccepts(Digits, w) <==>
              |w| > 0 && forall i :: 0 <= i < |w| ==> w[i] in ['0', '1', '2', '3', '4', '5', '6', '7', '8', '9']
    ensures AtomAccepts(GuestKind, w) <==> w in ["qemu", "lxc"]
  {
  }

  /** The language of a concatenation: some cut gives a prefix to the first atom and the rest to the others. */
  predicate Accepts(p: seq<Atom>, w: string)
    decreases |p|
  {
    if p == [] then w == ""
    else exists k :: 0 <= k <= |w| && AtomAccepts(p[0], w[..k]) && Accepts(p[1..], w[k..])
  }

  /** The regular expression "/s1/s2/.../sn" as a concatenation of atoms. */
  function Regex(segments: seq<Atom>): seq<Atom> {
    if segments == [] then [] else [Text("/"), segments[0]] + Regex(segments[1..])
  }

  // ----- the fourteen patterns, in source order -----

  const CLUSTER: seq<Atom> := [Text("api2"), Text("json"), Text("cluster")]
  const NODE: seq<Atom> := [Text("api2"), Text("json"), Text("nodes"), NotSlashes]
  const TASK: seq<Atom> := NODE + [Text("tasks"), NotSlashes]
  const GUEST: seq<Atom> := NODE + [GuestKind, Digits]

  const WHITELIST: seq<seq<Atom>> := [
    CLUSTER + [Text("resources")],
    CLUSTER + [Text("status")],
    CLUSTER + [Text("tasks")],
    NODE + [Text("status")],
    NODE + [Text("network")],
    NODE + [Text("firewall"), Text("rules")],
    NODE + [Text("tasks")],
    TASK + [Text("status")],
    TASK + [Text("log")],
    GUEST + [Text("config")],
    GUEST + [Text("snapshot")],
    GUEST + [Text("feature")],
    NODE + [Text("qemu"), Digits, Text("agent"), Text("get-fsinfo")],
    NODE + [Text("storage"), NotSlashes, Text("content")]
  ]

  // ----- the segment classifier -----

  /** The pieces of w between slashes; always at least one piece. */
  function Split(w: string): (parts: seq<string>)
    ensures |parts| > 0
    decreases |w|
  {
    if w == "" then [""]
    else if w[0] == '/' then [""] + Split(w[1..])
    else var rest := Split(w[1..]); [[w[0]] + rest[0]] + rest[1..]
  }

  /** Whether a path whose pieces are `s` may be read, decided segment by segment. */
  predicate Classify(s: seq<string>) {
    && |s| >= 5
    && s[..3] == ["", "api2", "json"]
    && if s[3] == "cluster" then |s| == 5 && s[4] in ["resources", "status", "tasks"]
       else s[3] == "nodes" && s[4] != "" && ClassifyNode(s[5..])
  }

  /** The part of a node path below /nodes/<node>. */
  predicate ClassifyNode(s: seq<string>) {
    if |s| == 1 then s[0] in ["status", "network", "tasks"]
    else if |s| == 2 then s == ["firewall", "rules"]
    else if |s| == 3 then
      if s[0] == "tasks" then s[1] != "" && s[2] in ["status", "log"]
      else if s[0] == "storage" then s[1] != "" && s[2] == "content"
      else s[0] in ["qemu", "lxc"] && AllDigits(s[1]) && s[2] in ["config", "snapshot", "feature"]
    else |s| == 4 && s[0] == "qemu" && AllDigits(s[1]) && s[2..] == ["agent", "get-fsinfo"]
  }

  // ----- languages of paths are determined by their segments -----

  /** An atom whose language holds no string with a slash. */
  predicate Slashless(a: Atom) { a.Text? ==> '/' !in a.text }

  /** A list of segments fits a list of atoms position by position. */
  predicate Fits(segments: seq<Atom>, parts: seq<string>) {
    |segments| == |parts| && forall i :: 0 <= i < |segments| ==> AtomAccepts(segments[i], parts[i])
  }

  lemma SlashlessWord(a: Atom, w: string)
    requires Slashless(a) && AtomAccepts(a, w)
    ensures '/' !in w
  {
  }

  lemma {:induction false} SplitFirst(seg: string, rest: string)
    requires '/' !in seg
    requires rest == "" || rest[0] == '/'
    ensures Split(seg + rest) == if rest == "" then [seg] else [seg] + Split(rest[1..])
  {
    if seg == "" {
      assert seg + rest == rest;
    } else {
      assert (seg + rest)[1..] == seg[1..] + rest;
      SplitFirst(seg[1..], rest);
      assert [seg[0]] + seg[1..] == seg;
    }
  }

  /**
   The pieces of a split hold no slash and, joined again, give the word: the
   first piece is the part before the first slash.
   */
  lemma {:induction false} SplitHead(w: string)
    ensures var h := Split(w)[0];
            && '/' !in h && |h| <= |w| && w[..|h|] == h
            && (|Split(w)| == 1 ==> w == h)
            && (|Split(w)| > 1 ==> |h| < |w| && w[|h|] == '/' && Split(w[|h| + 1..]) == Split(w)[1..])
  {
    if w != "" && w[0] != '/' {
      SplitHead(w[1..]);
      var h' := Split(w[1..])[0];
      var h := Split(w)[0];
      assert h == [w[0]] + h';
      assert w[..|h|] == [w[0]] + w[1..][..|h'|];
      if |Split(w)| > 1 {
        assert w[1..][|h'| + 1..] == w[|h| + 1..];
      } else {
        assert w == [w[0]] + w[1..];
      }
    }
  }

  lemma AcceptsSlash(p: seq<Atom>, w: string)
    ensures Accepts([Text("/")] + p, w) <==> w != "" && w[0] == '/' && Accepts(p, w[1..])
  {
    var q := [Text("/")] + p;
    assert q[1..] == p;
    if w != "" && w[0] == '/' && Accepts(p, w[1..]) {
      assert w[..1] == "/";
      assert AtomAccepts(q[0], w[..1]) && Accepts(q[1..], w[1..]);
    }
    if Accepts(q, w) {
      var k :| 0 <= k <= |w| && AtomAccepts(q[0], w[..k]) && Accepts(q[1..], w[k..]);
      assert w[..k] == "/";
      assert k == 1 && w[0] == '/';
    }
  }

  /**
   A path pattern accepts a word exactly if the word starts with a slash and its
   remaining pieces fit the segments.
   */
  lemma {:induction false} RegexIsSegments(segments: seq<Atom>, w: string)
    requires segments != [] && forall i :: 0 <= i < |segments| ==> Slashless(segments[i])
    ensures Accepts(Regex(segments), w) <==> Split(w)[0] == "" && Fits(segments, Split(w)[1..])
    decreases |segments|, 0
  {
    var a, more := segments[0], segments[1..];
    assert Regex(segments) == [Text("/")] + ([a] + Regex(more));
    AcceptsSlash([a] + Regex(more), w);
    SplitHead(w);
    if w == "" || w[0] != '/' {
      assert !(Split(w)[0] == "" && |Split(w)| > 1);
    } else {
      assert Split(w) == [""] + Split(w[1..]);
      TailIsSegments(a, more, w[1..]);
      assert Split(w)[1..] == Split(w[1..]);
      assert segments == [a] + more;
    }
  }

  lemma {:induction false} TailIsSegments(a: Atom, more: seq<Atom>, v: string)
    requires Slashless(a) && forall i :: 0 <= i < |more| ==> Slashless(more[i])
    ensures Accepts([a] + Regex(more), v) <==> Fits([a] + more, Split(v))
    decreases |more|, 1
  {
    if Accepts([a] + Regex(more), v) {
      var k := Cut(a, Regex(more), v);
      SlashlessWord(a, v[..k]);
      if more != [] { RegexIsSegments(more, v[k..]); }
      CutFits(a, more, v, k);
    }
    if Fits([a] + more, Split(v)) {
      var n := |Split(v)[0]|;
      SplitHead(v);
      if more != [] { RegexIsSegments(more, v[n..]); }
      FitsCut(a, more, v);
      Uncut(a, Regex(more), v, n);
    }
  }

  lemma Cut(a: Atom, rest: seq<Atom>, v: string) returns (k: nat)
    requires Accepts([a] + rest, v)
    ensures k <= |v| && AtomAccepts(a, v[..k]) && Accepts(rest, v[k..])
  {
    assert ([a] + rest)[1..] == rest;
    k :| 0 <= k <= |v| && AtomAccepts(([a] + rest)[0], v[..k]) && Accepts(([a] + rest)[1..], v[k..]);
  }

  lemma Uncut(a: Atom, rest: seq<Atom>, v: string, k: nat)
    requires k <= |v| && AtomAccepts(a, v[..k]) && Accepts(rest, v[k..])
    ensures Accepts([a] + rest, v)
  {
    assert ([a] + rest)[1..] == rest;
  }

  /** A cut of v after a slashless word, whose rest fits the remaining segments, fits all segments. */
  lemma CutFits(a: Atom, more: seq<Atom>, v: string, k: nat)
    requires k <= |v| && AtomAccepts(a, v[..k]) && '/' !in v[..k]
    requires if more == [] then v[k..] == "" else Split(v[k..])[0] == "" && Fits(more, Split(v[k..])[1..])
    ensures Fits([a] + more, Split(v))
  {
    var seg, t := v[..k], v[k..];
    assert v == seg + t;
    SplitFirst(seg, t);
    if more == [] {
      assert [a] + more == [a];
    } else {
      SplitHead(t);
      assert t[0] == '/' && Split(t) == [""] + Split(t[1..]);
      assert Split(t)[1..] == Split(t[1..]);
      FitsJoin([a], [seg], more, Split(t[1..]));
    }
  }

  /** Pieces that fit the segments give a cut after the first piece. */
  lemma FitsCut(a: Atom, more: seq<Atom>, v: string)
    requires Fits([a] + more, Split(v))
    requires |Split(v)[0]| <= |v|
    ensures var n := |Split(v)[0]|;
            && AtomAccepts(a, v[..n])
            && if more == [] then v[n..] == "" else Split(v[n..])[0] == "" && Fits(more, Split(v[n..])[1..])
  {
    var parts := Split(v);
    var n := |parts[0]|;
    SplitHead(v);
    assert ([a] + more)[0] == a && AtomAccepts(a, parts[0]);
    if more != [] {
      var t := v[n..];
      assert t[0] == '/' && t[1..] == v[n + 1..];
      assert Split(t) == [""] + Split(t[1..]);
      assert Split(t)[1..] == parts[1..];
      forall i | 0 <= i < |more| ensures AtomAccepts(more[i], parts[1..][i]) {
        assert ([a] + more)[i + 1] == more[i];
      }
    }
  }

  // ----- the list against the classifier -----

  /** Some pattern of the list fits the pieces. */
  predicate InTable(s: seq<string>)
    requires s != []
  {
    s[0] == "" && exists i :: 0 <= i < |WHITELIST| && Fits(WHITELIST[i], s[1..])
  }

  predicate Pieces(s: seq<string>) {
    s != [] && forall i :: 0 <= i < |s| ==> '/' !in s[i]
  }

  lemma {:induction false} SplitPieces(w: string)
    ensures Pieces(Split(w))
    decreases |w|
  {
    if w != "" { SplitPieces(w[1..]); }
  }

  lemma ClassifiedFits(s: seq<string>)
    requires Pieces(s) && Classify(s)
    ensures InTable(s)
  {
    var t := s[1..];
    assert s[..3][0] == s[0] && s[..3][1] == t[0] && s[..3][2] == t[1];
    if s[3] == "cluster" {
      var i := if t[3] == "resources" then 0 else if t[3] == "status" then 1 else 2;
      assert Fits(WHITELIST[i], t);
    } else {
      var i := NodeClassified(s[5..]);
      FitsJoin(NODE, t[..4], WHITELIST[i][4..], s[5..]);
      assert t == t[..4] + s[5..] && WHITELIST[i] == NODE + WHITELIST[i][4..];
    }
  }

  lemma NodeClassified(u: seq<string>) returns (i: nat)
    requires ClassifyNode(u) && forall j :: 0 <= j < |u| ==> '/' !in u[j]
    ensures 3 <= i < |WHITELIST| && NODE <= WHITELIST[i] && Fits(WHITELIST[i][4..], u)
  {
    if |u| == 1 {
      i := if u[0] == "status" then 3 else if u[0] == "network" then 4 else 6;
    } else if |u| == 2 {
      i := 5;
    } else if |u| == 4 {
      i := 12;
      assert u[2..][0] == u[2] && u[2..][1] == u[3];
    } else if u[0] == "tasks" {
      i := if u[2] == "status" then 7 else 8;
    } else if u[0] == "storage" {
      i := 13;
    } else {
      i := if u[2] == "config" then 9 else if u[2] == "snapshot" then 10 else 11;
    }
  }

  lemma FitsJoin(p: seq<Atom>, s: seq<string>, q: seq<Atom>, t: seq<string>)
    requires Fits(p, s) && Fits(q, t)
    ensures Fits(p + q, s + t)
  {
  }

  /** What the patterns under /nodes/<node> say about the pieces below the node. */
  lemma NodeFits(i: nat, t: seq<string>)
    requires 3 <= i < |WHITELIST| && Fits(WHITELIST[i], t)
    ensures |t| >= 5 && t[0] == "api2" && t[1] == "json" && t[2] == "nodes" && t[3] != ""
    ensures ClassifyNode(t[4..])
  {
    var p := WHITELIST[i];
    var u := t[4..];
    assert AtomAccepts(p[0], t[0]) && AtomAccepts(p[1], t[1]) && AtomAccepts(p[2], t[2]) && AtomAccepts(p[3], t[3]);
    assert forall j :: 0 <= j < |u| ==> u[j] == t[j + 4] && AtomAccepts(p[j + 4], u[j]);
    if i == 12 { assert u[2..] == ["agent", "get-fsinfo"]; }
  }

  lemma FitsClassified(s: seq<string>, i: nat)
    requires s != [] && s[0] == "" && i < |WHITELIST| && Fits(WHITELIST[i], s[1..])
    ensures Classify(s)
  {
    var t := s[1..];
    if i < 3 {
      assert forall j :: 0 <= j < 4 ==> AtomAccepts(WHITELIST[i][j], t[j]);
      assert s[..3] == ["", "api2", "json"];
      assert s[3] == t[2] && s[4] == t[3];
    } else {
      NodeFits(i, t);
      assert s[..3] == ["", "api2", "json"];
      assert s[3] == t[2] && s[4] == t[3] && s[5..] == t[4..];
    }
  }

  // ----- main results -----

  predicate AllSlashless(p: seq<Atom>) { forall i :: 0 <= i < |p| ==> Slashless(p[i]) }

  lemma PrefixesAreSlashless()
    ensures AllSlashless(CLUSTER) && AllSlashless(NODE) && AllSlashless(TASK) && AllSlashless(GUEST)
  {
  }

  lemma SegmentsAreSlashless(i: nat)
    requires i < |WHITELIST|
    ensures WHITELIST[i] != [] && AllSlashless(WHITELIST[i])
  {
    if i < 7 { FirstSegments(i); } else { LastSegments(i); }
  }

  lemma FirstSegments(i: nat)
    requires i < 7
    ensures WHITELIST[i] != [] && AllSlashless(WHITELIST[i])
  {
    PrefixesAreSlashless();
    var p := WHITELIST[i];
    var base := if i < 3 then CLUSTER else NODE;
    assert p == base + p[|base|..];
    assert AllSlashless(p[|base|..]);
  }

  lemma LastSegments(i: nat)
    requires 7 <= i < |WHITELIST|
    ensures WHITELIST[i] != [] && AllSlashless(WHITELIST[i])
  {
    PrefixesAreSlashless();
    if i < 9 {
      Joined(TASK, [Text(if i == 7 then "status" else "log")]);
    } else if i < 12 {
      Joined(GUEST, [Text(if i == 9 then "config" else if i == 10 then "snapshot" else "feature")]);
    } else if i == 12 {
      Joined(NODE, [Text("qemu"), Digits, Text("agent"), Text("get-fsinfo")]);
    } else {
      Joined(NODE, [Text("storage"), NotSlashes, Text("content")]);
    }
  }

  lemma Joined(p: seq<Atom>, q: seq<Atom>)
    requires AllSlashless(p) && AllSlashless(q) && q != []
    ensures p + q != [] && AllSlashless(p + q)
  {
  }

  /** The fourteen expressions accept exactly the paths the classifier accepts. */
  lemma WhitelistIsClassifier(w: string)
    ensures (exists i :: 0 <= i < |WHITELIST| && Accepts(Regex(WHITELIST[i]), w)) <==> Classify(Split(w))
  {
    SplitPieces(w);
    var s := Split(w);
    forall i | 0 <= i < |WHITELIST|
      ensures Accepts(Regex(WHITELIST[i]), w) <==> s[0] == "" && Fits(WHITELIST[i], s[1..])
    {
      SegmentsAreSlashless(i);
      RegexIsSegments(WHITELIST[i], w);
    }
    if Classify(s) { ClassifiedFits(s); }
    if InTable(s) {
      var i :| 0 <= i < |WHITELIST| && Fits(WHITELIST[i], s[1..]);
      FitsClassified(s, i);
    }
  }

  lemma TableDisjoint(i: nat, j: nat, t: seq<string>)
    requires i < |WHITELIST| && j < |WHITELIST|
    requires Fits(WHITELIST[i], t) && Fits(WHITELIST[j], t)
    ensures i == j
  {
    var p, q := WHITELIST[i], WHITELIST[j];
    assert |p| == |q| == |t|;
    assert forall k :: 0 <= k < |t| ==> AtomAccepts(p[k], t[k]) && AtomAccepts(q[k], t[k]);
    assert t[|t| - 1] == t[|t| - 1];
    assert |t| >= 5 ==> AtomAccepts(p[4], t[4]) && AtomAccepts(q[4], t[4]);
    assert AtomAccepts(p[|t| - 1], t[|t| - 1]) && AtomAccepts(q[|t| - 1], t[|t| - 1]);
  }

  /** No path is accepted by two of the expressions, so their order in the list cannot matter. */
  lemma WhitelistDisjoint(i: nat, j: nat, w: string)
    requires i < |WHITELIST| && j < |WHITELIST|
    requires Accepts(Regex(WHITELIST[i]), w) && Accepts(Regex(WHITELIST[j]), w)
    ensures i == j
  {
    SegmentsAreSlashless(i);
    SegmentsAreSlashless(j);
    RegexIsSegments(WHITELIST[i], w);
    RegexIsSegments(WHITELIST[j], w);
    TableDisjoint(i, j, Split(w)[1..]);
  }

  /** The search over a list of expressions. */
  method MatchesAny(list: seq<seq<Atom>>, path: string) returns (found: bool)
    ensures found <==> exists i :: 0 <= i < |list| && Accepts(Regex(list[i]), path)
  {
    for i := 0 to |list|
      invariant forall j :: 0 <= j < i ==> !Accepts(Regex(list[j]), path)
    {
      if Accepts(Regex(list[i]), path) {
        return true;
      }
    }
    return false;
  }

  /** endpointAllowed: whether any expression of the whitelist matches. */
  method EndpointAllowed(path: string) returns (allowed: bool)
    ensures allowed <==> Classify(Split(path))
    ensures allowed <==> exists i :: 0 <= i < |WHITELIST| && Accepts(Regex(WHITELIST[i]), path)
  {
    WhitelistIsClassifier(path);
    allowed := MatchesAny(WHITELIST, path);
  }
}
