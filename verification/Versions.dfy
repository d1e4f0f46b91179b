/** OpenShift versions: collecting all pages of OCM's listing and choosing the newest. */
module Versions {

  const PAGE_SIZE := 100

  /** A version of OCM with its parsed segments, most significant first. */
  datatype Version = Version(id: string, rawID: string, segments: seq<nat>)

  datatype Result<T> = Ok(value: T) | ErrPage(page: nat) | ErrNotFound

  // ---- Order ----

  function Head(a: seq<nat>): nat {
    if a == [] then 0 else a[0]
  }

  function Tail(a: seq<nat>): seq<nat> {
    if a == [] then [] else a[1..]
  }

  /** Segment by segment, missing segments count as zero. */
  predicate AtLeast(a: seq<nat>, b: seq<nat>)
    decreases |a| + |b|
  {
    if a == [] && b == [] then true
    else if Head(a) != Head(b) then Head(a) > Head(b)
    else AtLeast(Tail(a), Tail(b))
  }

  lemma {:induction false} Total(a: seq<nat>, b: seq<nat>)
    ensures AtLeast(a, b) || AtLeast(b, a)
    decreases |a| + |b|
  {
    if a != [] || b != [] {
      Total(Tail(a), Tail(b));
    }
  }

  lemma {:induction false} Transitive(a: seq<nat>, b: seq<nat>, c: seq<nat>)
    requires AtLeast(a, b) && AtLeast(b, c)
    ensures AtLeast(a, c)
    decreases |a| + |b| + |c|
  {
    if a != [] || b != [] || c != [] {
      Step(a, b);
      Step(b, c);
      if Head(a) == Head(b) == Head(c) {
        Transitive(Tail(a), Tail(b), Tail(c));
      }
      Step(a, c);
    }
  }

  /** One step of the comparison, also when both are exhausted. */
  lemma Step(a: seq<nat>, b: seq<nat>)
    ensures AtLeast(a, b) <==> Head(a) > Head(b) || (Head(a) == Head(b) && AtLeast(Tail(a), Tail(b)))
  {
  }

  /** A segment, counting missing ones as zero. */
  function Segment(a: seq<nat>, i: nat): nat {
    if i < |a| then a[i] else 0
  }

  lemma SegmentTail(a: seq<nat>, i: nat)
    ensures Segment(a, 0) == Head(a) && Segment(a, i + 1) == Segment(Tail(a), i)
  {
  }

  /** The first segment in which two versions differ decides, the most significant one being first. */
  lemma {:induction false} FirstDifferenceDecides(a: seq<nat>, b: seq<nat>, i: nat)
    requires Segment(a, i) > Segment(b, i) && forall j :: 0 <= j < i ==> Segment(a, j) == Segment(b, j)
    ensures AtLeast(a, b) && !AtLeast(b, a)
    decreases i
  {
    SegmentTail(a, 0);
    SegmentTail(b, 0);
    Step(a, b);
    Step(b, a);
    if i > 0 {
      assert Segment(a, 0) == Segment(b, 0);
      forall j | 0 <= j < i
        ensures Segment(Tail(a), j) == Segment(a, j + 1) && Segment(Tail(b), j) == Segment(b, j + 1)
      {
        SegmentTail(a, j);
        SegmentTail(b, j);
      }
      FirstDifferenceDecides(Tail(a), Tail(b), i - 1);
    }
  }

  /** Two versions are equally new exactly if they agree in all segments, so up to trailing zeros. */
  lemma {:induction false} EquallyNew(a: seq<nat>, b: seq<nat>)
    ensures AtLeast(a, b) && AtLeast(b, a) <==> forall i :: 0 <= i ==> Segment(a, i) == Segment(b, i)
    decreases |a| + |b|
  {
    if a != [] || b != [] {
      Step(a, b);
      Step(b, a);
      EquallyNew(Tail(a), Tail(b));
      if Head(a) == Head(b) && forall i :: 0 <= i ==> Segment(Tail(a), i) == Segment(Tail(b), i) {
        forall i | 0 <= i ensures Segment(a, i) == Segment(b, i) {
          if i > 0 {
            SegmentTail(a, i - 1);
            SegmentTail(b, i - 1);
          }
        }
      } else if forall i :: 0 <= i ==> Segment(a, i) == Segment(b, i) {
        assert Segment(a, 0) == Segment(b, 0);
        forall i | 0 <= i ensures Segment(Tail(a), i) == Segment(Tail(b), i) {
          assert Segment(a, i + 1) == Segment(b, i + 1);
        }
      }
    }
  }

  // ---- Sorting ----

  predicate Descending(s: seq<Version>) {
    forall i, j :: 0 <= i < j < |s| ==> AtLeast(s[i].segments, s[j].segments)
  }

  /** Inserts behind the versions that are at least as new. */
  function Insert(v: Version, s: seq<Version>): (r: seq<Version>)
    ensures multiset(r) == multiset(s) + multiset{v}
  {
    if s == [] then [v]
    else if AtLeast(s[0].segments, v.segments) then
      assert s == [s[0]] + s[1..];
      [s[0]] + Insert(v, s[1..])
    else [v] + s
  }

  lemma Members(v: Version, s: seq<Version>, x: Version)
    requires x in Insert(v, s)
    ensures x == v || x in s
  {
    assert x in multiset(Insert(v, s));
  }

  lemma PrependDescending(x: Version, rest: seq<Version>)
    requires Descending(rest) && forall k :: 0 <= k < |rest| ==> AtLeast(x.segments, rest[k].segments)
    ensures Descending([x] + rest)
  {
    var s := [x] + rest;
    forall i, j | 0 <= i < j < |s| ensures AtLeast(s[i].segments, s[j].segments) {
      assert s[j] == rest[j - 1];
      if i > 0 {
        assert s[i] == rest[i - 1];
      }
    }
  }

  lemma TailDescending(s: seq<Version>)
    requires s != [] && Descending(s)
    ensures Descending(s[1..]) && forall x :: x in s[1..] ==> AtLeast(s[0].segments, x.segments)
  {
    forall x | x in s[1..] ensures AtLeast(s[0].segments, x.segments) {
      var k :| 1 <= k < |s| && s[k] == x;
    }
  }

  lemma NewerThanAll(v: Version, s: seq<Version>)
    requires s != [] && Descending(s) && AtLeast(v.segments, s[0].segments)
    ensures forall k :: 0 <= k < |s| ==> AtLeast(v.segments, s[k].segments)
  {
    forall k | 0 <= k < |s| ensures AtLeast(v.segments, s[k].segments) {
      if k > 0 {
        Transitive(v.segments, s[0].segments, s[k].segments);
      }
    }
  }

  lemma {:induction false} InsertDescending(v: Version, s: seq<Version>)
    requires Descending(s)
    ensures Descending(Insert(v, s))
  {
    if s == [] {
    } else if AtLeast(s[0].segments, v.segments) {
      TailDescending(s);
      InsertDescending(v, s[1..]);
      var rest := Insert(v, s[1..]);
      forall k | 0 <= k < |rest| ensures AtLeast(s[0].segments, rest[k].segments) {
        Members(v, s[1..], rest[k]);
      }
      PrependDescending(s[0], rest);
    } else {
      Total(s[0].segments, v.segments);
      NewerThanAll(v, s);
      PrependDescending(v, s);
    }
  }

  function Sorted(s: seq<Version>): (r: seq<Version>)
    ensures multiset(r) == multiset(s)
  {
    if s == [] then []
    else
      assert s == [s[0]] + s[1..];
      Insert(s[0], Sorted(s[1..]))
  }

  lemma {:induction false} SortedDescending(s: seq<Version>)
    ensures Descending(Sorted(s))
  {
    if s != [] {
      SortedDescending(s[1..]);
      InsertDescending(s[0], Sorted(s[1..]));
    }
  }

  /** sortVersions: in place, newest first. */
  method SortVersions(versions: array<Version>)
    modifies versions
    ensures Descending(versions[..]) && multiset(versions[..]) == multiset(old(versions[..]))
  {
    var sorted := Sorted(versions[..]);
    SortedDescending(versions[..]);
    assert |sorted| == |multiset(sorted)| == |multiset(versions[..])| == versions.Length;
    for i := 0 to versions.Length
      invariant forall j :: 0 <= j < i ==> versions[j] == sorted[j]
    {
      versions[i] := sorted[i];
    }
    assert versions[..] == sorted;
  }

  // ---- Pages ----

  function Least(a: int, b: int): int {
    if a < b then a else b
  }

  /** OCM's answer for one page of a listing; pages are numbered from one. */
  function Page(listing: seq<Version>, page: nat): seq<Version>
    requires page >= 1
  {
    var from := Least((page - 1) * PAGE_SIZE, |listing|);
    listing[from..Least(from + PAGE_SIZE, |listing|)]
  }

  /** GetAvailableVersions: appends pages until one is short. `failing` is the page OCM fails on, if
      the loop gets that far; zero means none. */
  method GetAvailableVersions(listing: seq<Version>, failing: nat) returns (r: Result<seq<Version>>)
    ensures r.Ok? ==> Descending(r.value) && multiset(r.value) == multiset(listing)
    ensures r.Ok? <==> failing == 0 || failing > |listing| / PAGE_SIZE + 1
    ensures !r.Ok? ==> r == ErrPage(failing)
  {
    var versions: seq<Version> := [];
    var page := 1;
    var more := true;
    while more
      invariant 1 <= page && (failing == 0 || failing >= page)
      invariant more ==> (page - 1) * PAGE_SIZE <= |listing| && versions == listing[..(page - 1) * PAGE_SIZE]
      invariant !more ==> versions == listing && page == |listing| / PAGE_SIZE + 1 && failing != page
      decreases more, |listing| + PAGE_SIZE - page * PAGE_SIZE
    {
      if page == failing {
        return ErrPage(page);
      }
      var items := Page(listing, page);
      versions := versions + items;
      if |items| < PAGE_SIZE {
        more := false;
      } else {
        page := page + 1;
      }
    }
    var a := new Version[|versions|](i requires 0 <= i < |versions| => versions[i]);
    assert a[..] == versions;
    SortVersions(a);
    return Ok(a[..]);
  }

  /** GetDefaultVersion: a version of the listing that is at least as new as every other. */
  method GetDefaultVersion(listing: seq<Version>, failing: nat) returns (r: Result<Version>)
    ensures r.Ok? ==> IsNewest(r.value, listing)
    ensures r == ErrNotFound <==> listing == [] && failing != 1
    ensures r.ErrPage? <==> failing != 0 && failing <= |listing| / PAGE_SIZE + 1
  {
    var all := GetAvailableVersions(listing, failing);
    if !all.Ok? {
      return ErrPage(failing);
    }
    var versions := all.value;
    assert |versions| == |multiset(versions)| == |multiset(listing)| == |listing|;
    if |versions| > 0 {
      Newest(listing, versions);
      return Ok(versions[0]);
    }
    return ErrNotFound;
  }

  predicate IsNewest(v: Version, listing: seq<Version>) {
    v in listing && forall w :: w in listing ==> AtLeast(v.segments, w.segments)
  }

  predicate IsNewestOf(v: Version, listing: seq<Version>, rawID: string) {
    && v in listing && v.rawID == rawID
    && forall w :: w in listing && w.rawID == rawID ==> AtLeast(v.segments, w.segments)
  }

  /** OCM's answer to a search by raw ID. */
  function Matching(listing: seq<Version>, rawID: string): (r: seq<Version>)
    ensures forall v :: v in r <==> v in listing && v.rawID == rawID
  {
    if listing == [] then []
    else if listing[0].rawID == rawID then [listing[0]] + Matching(listing[1..], rawID)
    else Matching(listing[1..], rawID)
  }

  /** GetVersionObject: the newest of the versions with a raw ID. */
  method GetVersionObject(listing: seq<Version>, rawID: string, fails: bool) returns (r: Result<Version>)
    ensures r.Ok? ==> IsNewestOf(r.value, listing, rawID)
    ensures r == ErrNotFound <==> !fails && forall v :: v in listing ==> v.rawID != rawID
    ensures r.ErrPage? <==> fails
  {
    if fails {
      return ErrPage(1);
    }
    var found := Matching(listing, rawID);
    if |found| == 0 {
      assert forall v :: v in listing && v.rawID == rawID ==> v in found;
      return ErrNotFound;
    }
    assert found[0] in found;
    var a := new Version[|found|](i requires 0 <= i < |found| => found[i]);
    assert a[..] == found;
    SortVersions(a);
    Newest(found, a[..]);
    return Ok(a[0]);
  }

  lemma Newest(listing: seq<Version>, versions: seq<Version>)
    requires versions != [] && Descending(versions) && multiset(versions) == multiset(listing)
    ensures versions[0] in listing && forall v :: v in listing ==> AtLeast(versions[0].segments, v.segments)
  {
    assert versions[0] in multiset(listing);
    forall v | v in listing ensures AtLeast(versions[0].segments, v.segments) {
      assert v in multiset(versions);
      var k :| 0 <= k < |versions| && versions[k] == v;
      Total(v.segments, v.segments);
    }
  }
}
