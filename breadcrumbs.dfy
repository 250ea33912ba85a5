/** The breadcrumb trail: the path's non-empty segments, each linking to the path up to it. */
module BreadCrumbs {
  import opened Seqs

  /** One crumb: its text, its link target, whether it is a link (every crumb but the last), and
      whether a separator precedes it (every crumb but the first). */
  datatype Crumb = Crumb(text: string, routeTo: string, isLink: bool, separatorBefore: bool)

  predicate SlashFree(s: string)
  {
    '/' !in s
  }

  /** JavaScript's `split("/")`: the pieces between slashes, empty ones included; "" gives [""]. */
  function Split(s: string): (r: seq<string>)
    ensures |r| >= 1
    ensures forall i :: 0 <= i < |r| ==> SlashFree(r[i])
  {
    if s == [] then [""]
    else
      var rest := Split(s[1..]);
      if s[0] == '/' then [""] + rest
      else [[s[0]] + rest[0]] + rest[1..]
  }

  /** JavaScript's `join("/")`. */
  function Join(parts: seq<string>): string
  {
    if parts == [] then ""
    else if |parts| == 1 then parts[0]
    else parts[0] + "/" + Join(parts[1..])
  }

  /** The crumbs' segments: the pieces of the path that are not empty. */
  function Segments(path: string): (r: seq<string>)
    ensures forall i :: 0 <= i < |r| ==> r[i] != "" && SlashFree(r[i])
  {
    var pieces := Split(path);
    var r := Filter(pieces, (x: string) => x != "");
    assert forall i :: 0 <= i < |r| ==> r[i] in r && r[i] in pieces;
    r
  }

  /** The link target of crumb i: "/" and the first i+1 segments joined by "/". */
  function RouteTo(segments: seq<string>, i: nat): string
    requires i < |segments|
  {
    "/" + Join(segments[..i + 1])
  }

  /** The label: every '-' replaced by a space. */
  function Label(name: string): (r: string)
    ensures |r| == |name| && '-' !in r
    ensures forall i :: 0 <= i < |name| && name[i] != '-' ==> r[i] == name[i]
    ensures forall i :: 0 <= i < |name| && name[i] == '-' ==> r[i] == ' '
  {
    seq(|name|, i requires 0 <= i < |name| => if name[i] == '-' then ' ' else name[i])
  }

  function Crumbs(path: string): seq<Crumb>
  {
    var segments := Segments(path);
    seq(|segments|, i requires 0 <= i < |segments| =>
      Crumb(Label(segments[i]), RouteTo(segments, i), i != |segments| - 1, i > 0))
  }

  /** Splitting then joining gives back the string. */
  lemma {:induction false} JoinSplit(s: string)
    ensures Join(Split(s)) == s
  {
    if s != [] {
      var rest := Split(s[1..]);
      JoinSplit(s[1..]);
      if s[0] == '/' {
        assert Split(s) == [""] + rest;
        assert Join([""] + rest) == "" + "/" + Join(rest);
        assert s == [s[0]] + s[1..];
      } else {
        JoinConsFirst(s[0], rest);
        assert s == [s[0]] + s[1..];
      }
    }
  }

  /** Putting a character in front of the first part puts it in front of the joined string. */
  lemma {:induction false} JoinConsFirst(c: char, parts: seq<string>)
    requires |parts| >= 1
    ensures Join([[c] + parts[0]] + parts[1..]) == [c] + Join(parts)
  {
    var q := [[c] + parts[0]] + parts[1..];
    assert q[0] == [c] + parts[0] && q[1..] == parts[1..];
    if |parts| > 1 {
      assert Join(q) == q[0] + "/" + Join(q[1..]);
      assert Join(parts) == parts[0] + "/" + Join(parts[1..]);
    }
  }

  /** A slash-free string is a single piece. */
  lemma {:induction false} SplitSlashFree(p: string)
    requires SlashFree(p)
    ensures Split(p) == [p]
  {
    if p != [] {
      SplitSlashFree(p[1..]);
      assert p == [p[0]] + p[1..];
    }
  }

  /** A slash-free piece followed by a slash becomes the first piece. */
  lemma {:induction false} SplitAfterPiece(p: string, t: string)
    requires SlashFree(p)
    ensures Split(p + "/" + t) == [p] + Split(t)
  {
    if p == [] {
      assert p + "/" + t == "/" + t;
      assert ("/" + t)[1..] == t;
    } else {
      SplitAfterPiece(p[1..], t);
      assert (p + "/" + t)[1..] == p[1..] + "/" + t;
      assert p == [p[0]] + p[1..];
    }
  }

  /** Joining slash-free parts and splitting again gives back the parts. */
  lemma {:induction false} SplitJoin(parts: seq<string>)
    requires |parts| >= 1
    requires forall i :: 0 <= i < |parts| ==> SlashFree(parts[i])
    ensures Split(Join(parts)) == parts
  {
    if |parts| == 1 {
      SplitSlashFree(parts[0]);
    } else {
      SplitJoin(parts[1..]);
      SplitAfterPiece(parts[0], Join(parts[1..]));
      assert parts == [parts[0]] + parts[1..];
    }
  }

  /** The root path has no crumbs. */
  lemma RootHasNoCrumbs()
    ensures Segments("/") == [] && Crumbs("/") == []
  {
    assert Split("/") == ["", ""];
  }

  /** Only the last crumb is plain text, a separator precedes every crumb but the first, and each crumb
      is labelled by its segment. */
  lemma CrumbsShape(path: string)
    ensures |Crumbs(path)| == |Segments(path)|
    ensures forall i :: 0 <= i < |Crumbs(path)| ==> (Crumbs(path)[i].isLink <==> i < |Crumbs(path)| - 1)
    ensures forall i :: 0 <= i < |Crumbs(path)| ==> (Crumbs(path)[i].separatorBefore <==> i > 0)
    ensures forall i :: 0 <= i < |Crumbs(path)| ==> Crumbs(path)[i].text == Label(Segments(path)[i])
  {
  }

  /** Joining one more part extends the joined string by a slash and that part. */
  lemma {:induction false} JoinSnoc(parts: seq<string>, x: string)
    requires |parts| >= 1
    ensures Join(parts + [x]) == Join(parts) + "/" + x
  {
    if |parts| == 1 {
      assert (parts + [x])[1..] == [x];
    } else {
      JoinSnoc(parts[1..], x);
      assert (parts + [x])[1..] == parts[1..] + [x];
    }
  }

  /** Each crumb's route is the previous crumb's route followed by "/" and its own segment, so every route
      is a prefix of the next. */
  lemma RoutesExtend(segments: seq<string>, i: nat)
    requires i + 1 < |segments|
    ensures RouteTo(segments, i + 1) == RouteTo(segments, i) + "/" + segments[i + 1]
    ensures RouteTo(segments, i) <= RouteTo(segments, i + 1)
  {
    assert segments[..i + 2] == segments[..i + 1] + [segments[i + 1]];
    JoinSnoc(segments[..i + 1], segments[i + 1]);
  }

  /** Following crumb i leads to a path whose segments are exactly the first i+1 segments. */
  lemma RouteLeadsToPrefix(path: string, i: nat)
    requires i < |Segments(path)|
    ensures Segments(RouteTo(Segments(path), i)) == Segments(path)[..i + 1]
  {
    var segments := Segments(path);
    var prefix := segments[..i + 1];
    var p := (x: string) => x != "";
    SplitJoin(prefix);
    assert Split("/" + Join(prefix)) == [""] + Split(Join(prefix)) by {
      SplitAfterPiece("", Join(prefix));
      assert "" + "/" + Join(prefix) == "/" + Join(prefix);
    }
    FilterConcat([""], prefix, p);
    FilterKeepsAll(prefix, p);
    assert Filter([""], p) == [];
  }
}
