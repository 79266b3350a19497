/** The meaning of the message repository's derived query
    `findByRoomIdAndCreatedAtBefore(roomId, cutoff, pageable)`: the messages
    of one room created strictly before the cutoff, sorted on `createdAt`,
    cut into pages of a fixed size, returned as a slice with a `last` flag. */
module MessageQuery {
  import opened ChatDomain

  datatype Direction = Asc | Desc

  /** A page size; a page request never has size zero. */
  type PageSize = n: nat | n >= 1 witness 1

  /** A page request sorted on `createdAt` in the given direction. */
  datatype PageRequest = PageRequest(page: nat, size: PageSize, direction: Direction)

  /** One page of results and whether no further page has any. */
  datatype Slice = Slice(content: seq<Message>, isLast: bool)

  /** The query's filter: in room `roomId`, created strictly before `cutoff`. */
  predicate Matches(m: Message, roomId: string, cutoff: Time)
  {
    m.roomId == roomId && m.createdAt < cutoff
  }

  /** The messages of the log that the query selects, in log order. */
  function Before(log: seq<Message>, roomId: string, cutoff: Time): (r: seq<Message>)
    ensures forall m :: multiset(r)[m] == if Matches(m, roomId, cutoff) then multiset(log)[m] else 0
  {
    if log == [] then []
    else
      assert log == [log[0]] + log[1..];
      (if Matches(log[0], roomId, cutoff) then [log[0]] else []) + Before(log[1..], roomId, cutoff)
  }

  predicate InOrder(a: Message, b: Message, dir: Direction)
  {
    match dir
    case Asc => a.createdAt <= b.createdAt
    case Desc => a.createdAt >= b.createdAt
  }

  predicate Sorted(s: seq<Message>, dir: Direction)
  {
    forall i, j :: 0 <= i < j < |s| ==> InOrder(s[i], s[j], dir)
  }

  /** A message in order before every element of a sorted list may lead it. */
  lemma PrependSorted(y: Message, t: seq<Message>, dir: Direction)
    requires Sorted(t, dir)
    requires forall k :: 0 <= k < |t| ==> InOrder(y, t[k], dir)
    ensures Sorted([y] + t, dir)
  {
  }

  /** `x` placed into a sorted list ahead of the first element it may precede. */
  function Insert(x: Message, s: seq<Message>, dir: Direction): (r: seq<Message>)
    requires Sorted(s, dir)
    ensures Sorted(r, dir)
    ensures multiset(r) == multiset(s) + multiset{x}
  {
    if s == [] then [x]
    else if InOrder(x, s[0], dir) then
      PrependSorted(x, s, dir);
      [x] + s
    else
      assert s == [s[0]] + s[1..];
      var rest := Insert(x, s[1..], dir);
      assert forall k :: 0 <= k < |rest| ==> InOrder(s[0], rest[k], dir) by {
        forall k | 0 <= k < |rest|
          ensures InOrder(s[0], rest[k], dir)
        {
          assert rest[k] in multiset(s[1..]) + multiset{x};
          if rest[k] != x {
            assert rest[k] in s[1..];
          }
        }
      }
      PrependSorted(s[0], rest, dir);
      [s[0]] + rest
  }

  /** The messages sorted on `createdAt` in direction `dir`: a sorted
      permutation of the input. */
  function SortByCreatedAt(s: seq<Message>, dir: Direction): (r: seq<Message>)
    ensures Sorted(r, dir)
    ensures multiset(r) == multiset(s)
  {
    if s == [] then []
    else
      assert s == [s[0]] + s[1..];
      Insert(s[0], SortByCreatedAt(s[1..], dir), dir)
  }

  function Min(a: nat, b: nat): nat { if a <= b then a else b }

  /** Index of the first result of page `p`. */
  function Offset(p: PageRequest): nat { p.page * p.size }

  /** Every result the query would return on any page, in page order. */
  function Results(log: seq<Message>, roomId: string, cutoff: Time, dir: Direction): seq<Message>
  {
    SortByCreatedAt(Before(log, roomId, cutoff), dir)
  }

  /** The results are exactly as many as the selected messages, and each
      one is a selected message of the log. */
  lemma ResultsAreSelected(log: seq<Message>, roomId: string, cutoff: Time, dir: Direction)
    ensures |Results(log, roomId, cutoff, dir)| == |Before(log, roomId, cutoff)|
    ensures forall m :: m in Results(log, roomId, cutoff, dir) ==> m in log && Matches(m, roomId, cutoff)
  {
    var all := Results(log, roomId, cutoff, dir);
    assert |multiset(all)| == |multiset(Before(log, roomId, cutoff))|;
    forall m | m in all
      ensures m in log && Matches(m, roomId, cutoff)
    {
      assert m in multiset(all);
    }
  }

  /** `w` is the part of `s` from position `off` on, at most `size` long:
      what a page of size `size` starting at `off` holds. */
  predicate IsWindow(w: seq<Message>, s: seq<Message>, off: nat, size: nat)
  {
    && |w| == (if |s| <= off then 0 else Min(size, |s| - off))
    && forall k :: 0 <= k < |w| ==> off + k < |s| && w[k] == s[off + k]
  }

  /** The window of at most `size` elements of `s` from position `off`: its
      length, its elements by position, and that it keeps `s` sorted. */
  lemma WindowFacts(s: seq<Message>, off: nat, size: nat, dir: Direction)
    requires Sorted(s, dir)
    ensures var w := s[Min(off, |s|)..Min(off + size, |s|)];
            && Sorted(w, dir)
            && IsWindow(w, s, off, size)
            && (forall m :: m in w ==> m in s)
  {
  }

  /** The slice the repository returns for page request `p`. */
  function FindByRoomIdAndCreatedAtBefore(log: seq<Message>, roomId: string, cutoff: Time, p: PageRequest): (r: Slice)
    ensures |r.content| <= p.size
    ensures forall m :: m in r.content ==> m in log && Matches(m, roomId, cutoff)
    ensures Sorted(r.content, p.direction)
    ensures r.isLast <==> |Before(log, roomId, cutoff)| <= Offset(p) + p.size
    ensures IsWindow(r.content, Results(log, roomId, cutoff, p.direction), Offset(p), p.size)
  {
    var all := Results(log, roomId, cutoff, p.direction);
    ResultsAreSelected(log, roomId, cutoff, p.direction);
    var off := Offset(p);
    WindowFacts(all, off, p.size, p.direction);
    Slice(all[Min(off, |all|)..Min(off + p.size, |all|)], |all| <= off + p.size)
  }

  /** A slice is the last one exactly when the next page would be empty. */
  lemma LastIffNextPageEmpty(log: seq<Message>, roomId: string, cutoff: Time, p: PageRequest)
    ensures FindByRoomIdAndCreatedAtBefore(log, roomId, cutoff, p).isLast
            <==> FindByRoomIdAndCreatedAtBefore(log, roomId, cutoff, p.(page := p.page + 1)).content == []
  {
    var next := p.(page := p.page + 1);
    assert Offset(next) == Offset(p) + p.size;
  }

  /** The number of the page of size `size` that holds position `i`. */
  lemma PageOfIndex(i: nat, size: PageSize) returns (k: nat)
    ensures k * size <= i < k * size + size
  {
    k := i / size;
  }

  /** Every selected message is among the results. */
  lemma SelectedIsResult(log: seq<Message>, roomId: string, cutoff: Time, dir: Direction, m: Message)
    requires m in log && Matches(m, roomId, cutoff)
    ensures m in Results(log, roomId, cutoff, dir)
  {
    assert multiset(Before(log, roomId, cutoff))[m] > 0;
    assert m in multiset(Results(log, roomId, cutoff, dir));
  }

  /** A window of `size` positions of `all` from `off`, cut to its end,
      holds each element at a position inside the window. */
  lemma WindowHolds(content: seq<Message>, all: seq<Message>, off: nat, size: nat, i: nat)
    requires IsWindow(content, all, off, size)
    requires off <= i < off + size && i < |all|
    ensures all[i] in content
  {
    assert content[i - off] == all[i];
  }

  /** Page `p` holds the result at each position from `Offset(p)` up to
      `Offset(p) + p.size`. */
  lemma PageHoldsPosition(log: seq<Message>, roomId: string, cutoff: Time, p: PageRequest, i: nat)
    requires i < |Results(log, roomId, cutoff, p.direction)|
    requires Offset(p) <= i < Offset(p) + p.size
    ensures Results(log, roomId, cutoff, p.direction)[i] in FindByRoomIdAndCreatedAtBefore(log, roomId, cutoff, p).content
  {
    var all := Results(log, roomId, cutoff, p.direction);
    WindowHolds(FindByRoomIdAndCreatedAtBefore(log, roomId, cutoff, p).content, all, Offset(p), p.size, i);
  }

  /** Under one fixed order among messages with equal `createdAt` (the
      model's log order, used by every page query), no selected message is
      lost between pages: each one appears on some page of any page size. */
  lemma EveryResultOnSomePage(log: seq<Message>, roomId: string, cutoff: Time, size: PageSize, dir: Direction, m: Message)
    requires m in log && Matches(m, roomId, cutoff)
    ensures exists k: nat :: m in FindByRoomIdAndCreatedAtBefore(log, roomId, cutoff, PageRequest(k, size, dir)).content
  {
    var all := Results(log, roomId, cutoff, dir);
    SelectedIsResult(log, roomId, cutoff, dir, m);
    var i :| 0 <= i < |all| && all[i] == m;
    var k := PageOfIndex(i, size);
    PageHoldsPosition(log, roomId, cutoff, PageRequest(k, size, dir), i);
  }
}
