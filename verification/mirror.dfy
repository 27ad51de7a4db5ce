/** The list screens' local mirror of a collection: the search filter applied
    at render time, the wholesale replacement on fetch, and the removal of a
    deleted record after the server has accepted the delete. Shared by the
    room, employee and visitor lists. */
module Mirror {
  import opened Wrappers
  import opened Js
  import opened Http

  // ---------------------------------------------------------------- subsequences

  /** `ys` can be obtained from `xs` by dropping elements, keeping order. */
  ghost predicate IsSubsequence<T>(ys: seq<T>, xs: seq<T>)
    decreases |xs|
  {
    if |ys| == 0 then true
    else if |xs| == 0 then false
    else (ys[0] == xs[0] && IsSubsequence(ys[1..], xs[1..])) || IsSubsequence(ys, xs[1..])
  }

  /** `xs.filter(keep)`: the elements that pass, in their original order. The
      result is the unique order-preserving subsequence that holds every
      passing element as often as `xs` does and nothing else. */
  function Filter<T(!new)>(xs: seq<T>, keep: T -> bool): (r: seq<T>)
    ensures IsSubsequence(r, xs)
    ensures forall i :: 0 <= i < |r| ==> keep(r[i])
    ensures forall x :: multiset(r)[x] == if keep(x) then multiset(xs)[x] else 0
  {
    if |xs| == 0 then []
    else
      assert xs == [xs[0]] + xs[1..];
      var rest := Filter(xs[1..], keep);
      if keep(xs[0]) then [xs[0]] + rest else rest
  }

  /** When every element passes, filtering returns the sequence itself. */
  lemma {:induction false} FilterKeepsAll<T(!new)>(xs: seq<T>, keep: T -> bool)
    requires forall i :: 0 <= i < |xs| ==> keep(xs[i])
    ensures Filter(xs, keep) == xs
    decreases |xs|
  {
    if |xs| > 0 {
      FilterKeepsAll(xs[1..], keep);
    }
  }

  /** A weaker test keeps a superset, in the same order: whatever `strict`
      keeps, `loose` keeps too. */
  lemma {:induction false} FilterMonotone<T(!new)>(xs: seq<T>, strict: T -> bool, loose: T -> bool)
    requires forall x :: strict(x) ==> loose(x)
    ensures IsSubsequence(Filter(xs, strict), Filter(xs, loose))
    decreases |xs|
  {
    if |xs| > 0 {
      FilterMonotone(xs[1..], strict, loose);
      var a := Filter(xs[1..], strict);
      var b := Filter(xs[1..], loose);
      if strict(xs[0]) {
        assert ([xs[0]] + a)[1..] == a;
        assert ([xs[0]] + b)[1..] == b;
      } else if loose(xs[0]) {
        assert ([xs[0]] + b)[1..] == b;
      }
    }
  }

  // ---------------------------------------------------------------- removal

  /** The mirror after a delete of `id` succeeded: `mirror.filter(r => r._id !== id)`. */
  function RemoveId<T(!new)>(xs: seq<T>, key: T -> string, id: string): (r: seq<T>)
    ensures IsSubsequence(r, xs)
    ensures forall i :: 0 <= i < |r| ==> key(r[i]) != id
    ensures forall x :: key(x) != id ==> multiset(r)[x] == multiset(xs)[x]
    ensures forall x :: key(x) == id ==> x !in r
    ensures (forall i :: 0 <= i < |xs| ==> key(xs[i]) != id) ==> r == xs
  {
    var r := Filter(xs, x => key(x) != id);
    if forall i :: 0 <= i < |xs| ==> key(xs[i]) != id then
      FilterKeepsAll(xs, x => key(x) != id);
      r
    else
      r
  }

  /** Removing the same id twice removes nothing the second time. */
  lemma RemoveIdIdempotent<T(!new)>(xs: seq<T>, key: T -> string, id: string)
    ensures RemoveId(RemoveId(xs, key, id), key, id) == RemoveId(xs, key, id)
  {
  }

  /** Removing one id leaves the records with every other id alone: removing
      `a` then `b` is removing `b` then `a`. */
  lemma {:induction false} RemoveIdCommutes<T(!new)>(xs: seq<T>, key: T -> string, a: string, b: string)
    ensures RemoveId(RemoveId(xs, key, a), key, b) == RemoveId(RemoveId(xs, key, b), key, a)
    decreases |xs|
  {
    if |xs| > 0 {
      RemoveIdCommutes(xs[1..], key, a, b);
      var keepA := (x: T) => key(x) != a;
      var keepB := (x: T) => key(x) != b;
      assert Filter(xs, keepA) == (if keepA(xs[0]) then [xs[0]] else []) + Filter(xs[1..], keepA);
      assert Filter(xs, keepB) == (if keepB(xs[0]) then [xs[0]] else []) + Filter(xs[1..], keepB);
      FilterCons(xs[0], Filter(xs[1..], keepA), keepB);
      FilterCons(xs[0], Filter(xs[1..], keepB), keepA);
    }
  }

  /** Filtering distributes over putting one element in front. */
  lemma FilterCons<T(!new)>(x: T, rest: seq<T>, keep: T -> bool)
    ensures Filter([x] + rest, keep) == (if keep(x) then [x] else []) + Filter(rest, keep)
    ensures Filter([] + rest, keep) == Filter(rest, keep)
  {
    assert ([x] + rest)[1..] == rest;
    assert [] + rest == rest;
  }

  // ---------------------------------------------------------------- lookup

  /** `xs.findIndex(x => key(x) === id)`, as an option: the first match. */
  function FindIndex<T>(xs: seq<T>, key: T -> string, id: string): (r: Option<nat>)
    ensures r.Some? ==> r.value < |xs| && key(xs[r.value]) == id
    ensures r.Some? ==> forall j :: 0 <= j < r.value ==> key(xs[j]) != id
    ensures r.None? ==> forall j :: 0 <= j < |xs| ==> key(xs[j]) != id
    decreases |xs|
  {
    if |xs| == 0 then None
    else if key(xs[0]) == id then Some(0)
    else
      var r := FindIndex(xs[1..], key, id);
      if r.None? then None else Some(r.value + 1)
  }

  /** `xs.find(x => key(x) === id)`. */
  function Find<T>(xs: seq<T>, key: T -> string, id: string): (r: Option<T>)
    ensures r.None? <==> forall j :: 0 <= j < |xs| ==> key(xs[j]) != id
    ensures r.Some? ==> key(r.value) == id && r.value in xs
    ensures forall i :: 0 <= i < |xs| && key(xs[i]) == id && (forall j :: 0 <= j < i ==> key(xs[j]) != id)
              ==> r == Some(xs[i])
  {
    var k := FindIndex(xs, key, id);
    if k.None? then None else Some(xs[k.value])
  }

  // ---------------------------------------------------------------- list state

  /** A list screen's state: the mirror, the error shown instead of the table
      (`null` is `None`) and the loading flag. */
  datatype ListState<T> = ListState(mirror: seq<T>, error: Option<string>, loading: bool)

  /** The state on mount: empty mirror, no error, loading. */
  function Mounted<T>(): ListState<T> {
    ListState([], None, true)
  }

  /** The result of a list fetch: the new state and the requests issued. */
  datatype Fetched<T> = Fetched(state: ListState<T>, requests: seq<Request>)

  /** The fetch on mount: one GET; on success the mirror is replaced wholesale
      and the error cleared, on failure the error becomes `err.message` and
      the mirror is kept. Loading ends either way. */
  function Fetch<T>(s: ListState<T>, path: string, authorization: Option<string>, reply: Reply<seq<T>>): (f: Fetched<T>)
    ensures f.requests == [Request(GET, path, authorization, None)]
    ensures !f.state.loading
    ensures reply.Ok? ==> f.state.mirror == reply.data && f.state.error.None?
    ensures reply.Fail? ==> f.state.mirror == s.mirror && f.state.error == reply.error.message
  {
    var loaded := match reply
      case Ok(data) => s.(mirror := data, error := None)
      case Fail(e) => s.(error := e.message);
    Fetched(loaded.(loading := false), [Request(GET, path, authorization, None)])
  }

  /** What the screen renders: nothing while loading or while the error is
      truthy, otherwise the filtered mirror. */
  function Rows<T(!new)>(s: ListState<T>, keep: T -> bool): (rows: Option<seq<T>>)
    ensures rows.Some? <==> !s.loading && !Filled(s.error)
    ensures rows.Some? ==> IsSubsequence(rows.value, s.mirror)
    ensures rows.Some? ==> forall i :: 0 <= i < |rows.value| ==> keep(rows.value[i])
    ensures rows.Some? ==> forall x :: multiset(rows.value)[x] == if keep(x) then multiset(s.mirror)[x] else 0
  {
    if s.loading || Filled(s.error) then None else Some(Filter(s.mirror, keep))
  }

  /** After a fetch the table shows the fetched records filtered, or, when
      the fetch failed, only the error; an empty or absent `err.message` is
      falsy, so the old mirror is shown instead. */
  lemma FetchThenRows<T(!new)>(s: ListState<T>, path: string, authorization: Option<string>,
                               reply: Reply<seq<T>>, keep: T -> bool)
    ensures var st := Fetch(s, path, authorization, reply).state;
            && (reply.Ok? ==> Rows(st, keep) == Some(Filter(reply.data, keep)))
            && (reply.Fail? ==> (Rows(st, keep).None? <==> Filled(reply.error.message)))
            && (reply.Fail? && !Filled(reply.error.message) ==> Rows(st, keep) == Some(Filter(s.mirror, keep)))
  {
  }

  // ---------------------------------------------------------------- delete

  /** The notification after a confirmed delete. */
  datatype Notice = Deleted(text: string) | DeleteFailed(text: string)

  const DeletedDefault := "Data berhasil dihapus"
  const DeleteFailedText := "Gagal menghapus data"

  /** The result of a delete action: the mirror, the requests, the notice. */
  datatype Deletion<T> = Deletion(mirror: seq<T>, requests: seq<Request>, notice: Option<Notice>)

  /** `handleDelete`: only a confirmed prompt issues the DELETE; only a
      successful reply changes the mirror, by removing every record whose id
      is the target. `reply` carries `response.data.message`. */
  function Delete<T(!new)>(mirror: seq<T>, key: T -> string, id: string, path: string,
                     authorization: Option<string>, confirmed: bool, reply: Reply<Option<string>>): (d: Deletion<T>)
    ensures !confirmed ==> d == Deletion(mirror, [], None)
    ensures confirmed ==> d.requests == [Request(DELETE, path, authorization, None)]
    ensures confirmed && reply.Ok? ==>
              && IsSubsequence(d.mirror, mirror)
              && (forall i :: 0 <= i < |d.mirror| ==> key(d.mirror[i]) != id)
              && (forall x :: key(x) != id ==> multiset(d.mirror)[x] == multiset(mirror)[x])
              && d.notice.Some? && d.notice.value.Deleted? && d.notice.value.text != ""
    ensures confirmed && reply.Fail? ==> d.mirror == mirror && d.notice == Some(DeleteFailed(DeleteFailedText))
  {
    if !confirmed then Deletion(mirror, [], None)
    else
      var request := [Request(DELETE, path, authorization, None)];
      match reply
      case Ok(message) =>
        var text := if Filled(message) then message.value else DeletedDefault;
        Deletion(RemoveId(mirror, key, id), request, Some(Deleted(text)))
      case Fail(_) => Deletion(mirror, request, Some(DeleteFailed(DeleteFailedText)))
  }

  /** Deleting an id the mirror does not hold leaves the mirror as it is,
      whatever the prompt and the server answer. */
  lemma DeleteAbsentIsNoOp<T(!new)>(mirror: seq<T>, key: T -> string, id: string, path: string,
                              authorization: Option<string>, confirmed: bool, reply: Reply<Option<string>>)
    requires forall i :: 0 <= i < |mirror| ==> key(mirror[i]) != id
    ensures Delete(mirror, key, id, path, authorization, confirmed, reply).mirror == mirror
  {
  }

  /** A second successful delete of the same id finds nothing left to remove. */
  lemma DeleteTwice<T(!new)>(mirror: seq<T>, key: T -> string, id: string, path: string,
                       authorization: Option<string>, reply: Reply<Option<string>>)
    requires reply.Ok?
    ensures var once := Delete(mirror, key, id, path, authorization, true, reply).mirror;
            Delete(once, key, id, path, authorization, true, reply).mirror == once
  {
    var once := Delete(mirror, key, id, path, authorization, true, reply).mirror;
    DeleteAbsentIsNoOp(once, key, id, path, authorization, true, reply);
  }
}
