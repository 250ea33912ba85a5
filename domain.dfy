/** Entities shared by the client and the server of the outreach tracker. */
module Domain {

  datatype Option<+T> = None | Some(value: T)

  /** A calendar day as an ordinal. Day strings 'YYYY-MM-DD' compare in the same order. */
  type Date = int

  /** A document identity (a Mongo ObjectId). */
  type Id = nat

  /** A logged communication, as the client sees it once the server has populated it. */
  datatype Comm = Comm(
    id: Id,
    companyId: Id,
    communicationType: string,
    communicationDate: Date,
    notes: string)

  /** A company as the client holds it: `lastCommunications` is the populated log, in insertion order;
      `nextCommunication` is the denormalised fallback date (None for a missing or empty value). */
  datatype Company = Company(
    id: Id,
    name: string,
    location: string,
    linkedInProfile: string,
    emails: seq<string>,
    phoneNumbers: seq<string>,
    comments: string,
    communicationPeriodicity: string,
    lastCommunications: seq<Comm>,
    nextCommunication: Option<Date>)

  /** A scheduled next contact. */
  datatype Schedule = Schedule(
    id: Id,
    companyId: Id,
    communicationType: string,
    scheduledDate: Date,
    isCompleted: bool)

  /** A communication method managed by the admin. */
  datatype Method = Method(
    id: Id,
    name: string,
    description: string,
    sequence: int,
    mandatory: bool)

  /** The ids of a sequence of companies, in order. */
  function Ids(cs: seq<Company>): (r: seq<Id>)
    ensures |r| == |cs|
    ensures forall i :: 0 <= i < |cs| ==> r[i] == cs[i].id
  {
    if cs == [] then [] else [cs[0].id] + Ids(cs[1..])
  }

  /** No two companies share an id. */
  predicate DistinctIds(cs: seq<Company>)
  {
    forall i, j :: 0 <= i < j < |cs| ==> cs[i].id != cs[j].id
  }

  /** The position of the first company with the given id (JavaScript's findIndex), or None for -1. */
  function FindIndex(cs: seq<Company>, id: Id): (r: Option<nat>)
    ensures r.Some? ==> r.value < |cs| && cs[r.value].id == id && forall j :: 0 <= j < r.value ==> cs[j].id != id
    ensures r.None? ==> forall j :: 0 <= j < |cs| ==> cs[j].id != id
  {
    if cs == [] then None
    else if cs[0].id == id then Some(0)
    else match FindIndex(cs[1..], id)
      case None => None
      case Some(k) => Some(k + 1)
  }
}

/** Order-preserving filtering and replacement, as JavaScript's Array.filter and Array.map do them. */
module Seqs {

  /** The elements of `s` that satisfy `p`, in order. */
  function Filter<T(!new)>(s: seq<T>, p: T -> bool): (r: seq<T>)
    ensures |r| <= |s|
    ensures forall x :: x in r <==> x in s && p(x)
    ensures |r| == |s| <==> forall i :: 0 <= i < |s| ==> p(s[i])
  {
    if s == [] then [] else (if p(s[0]) then [s[0]] else []) + Filter(s[1..], p)
  }

  /** Filtering distributes over concatenation, so the kept elements stay in their relative order. */
  lemma {:induction false} FilterConcat<T(!new)>(a: seq<T>, b: seq<T>, p: T -> bool)
    ensures Filter(a + b, p) == Filter(a, p) + Filter(b, p)
  {
    if a != [] {
      assert (a + b)[1..] == a[1..] + b;
      FilterConcat(a[1..], b, p);
    } else {
      assert a + b == b;
    }
  }

  /** Filtering with a predicate every element satisfies keeps the sequence as it is. */
  lemma {:induction false} FilterKeepsAll<T(!new)>(s: seq<T>, p: T -> bool)
    requires forall i :: 0 <= i < |s| ==> p(s[i])
    ensures Filter(s, p) == s
  {
    if s != [] {
      FilterKeepsAll(s[1..], p);
    }
  }

  predicate NoDuplicates<T(==)>(s: seq<T>)
  {
    forall i, j :: 0 <= i < j < |s| ==> s[i] != s[j]
  }

  /** Filtering a sequence without duplicates yields one without duplicates. */
  lemma {:induction false} FilterNoDuplicates<T(!new)>(s: seq<T>, p: T -> bool)
    requires NoDuplicates(s)
    ensures NoDuplicates(Filter(s, p))
  {
    if s != [] {
      FilterNoDuplicates(s[1..], p);
      var rest := Filter(s[1..], p);
      if p(s[0]) {
        assert s[0] !in s[1..];
        assert s[0] !in rest;
        var r := [s[0]] + rest;
        forall i, j | 0 <= i < j < |r|
          ensures r[i] != r[j]
        {
          if i == 0 {
            assert r[j] == rest[j - 1];
          }
        }
      }
    }
  }

  /** The pairs of two equally long sequences, position by position. */
  function Zip<A, B>(a: seq<A>, b: seq<B>): (r: seq<(A, B)>)
    requires |a| == |b|
    ensures |r| == |a| && forall i :: 0 <= i < |a| ==> r[i] == (a[i], b[i])
  {
    seq(|a|, i requires 0 <= i < |a| => (a[i], b[i]))
  }

  /** Every element satisfying `p` replaced by `x`; the rest untouched. */
  function ReplaceWhere<T>(s: seq<T>, p: T -> bool, x: T): (r: seq<T>)
    ensures |r| == |s|
    ensures forall i :: 0 <= i < |s| && !p(s[i]) ==> r[i] == s[i]
    ensures forall i :: 0 <= i < |s| && p(s[i]) ==> r[i] == x
  {
    seq(|s|, i requires 0 <= i < |s| => if p(s[i]) then x else s[i])
  }
}
