/**
 * The two ordered registries of the Permissions service (group-updated
 * subscribers and permission callbacks) share one shape: a vector of
 * shared_ptr records that is appended to and erased from in place.
 * Each record here carries the name it was registered under, a handle that
 * stands for the identity of its shared_ptr, and its payload.
 */
module Registry {
  import opened Wrappers

  datatype Entry<T> = Entry(name: string, handle: nat, payload: T)

  ghost predicate DistinctHandles<T>(s: seq<Entry<T>>)
  {
    forall i, j :: 0 <= i < j < |s| ==> s[i].handle != s[j].handle
  }

  ghost predicate HandlesBelow<T>(s: seq<Entry<T>>, bound: nat)
  {
    forall i :: 0 <= i < |s| ==> s[i].handle < bound
  }

  /** std::find_if on the name: the index of the first entry registered under `name`. */
  function FirstNamed<T>(s: seq<Entry<T>>, name: string): (r: Option<nat>)
    ensures r.Some? ==> (r.value < |s| && s[r.value].name == name
                         && forall j :: 0 <= j < r.value ==> s[j].name != name)
    ensures r.None? ==> forall j :: 0 <= j < |s| ==> s[j].name != name
  {
    if |s| == 0 then None
    else if s[0].name == name then Some(0)
    else
      match FirstNamed(s[1..], name)
      case Some(k) => Some(k + 1)
      case None => None
  }

  /** What unregistering by name promises: the first entry with that name is gone, nothing else. */
  function WithoutFirstNamed<T>(s: seq<Entry<T>>, name: string): seq<Entry<T>>
  {
    match FirstNamed(s, name)
    case Some(k) => s[..k] + s[k + 1..]
    case None => s
  }

  /** std::remove on the shared_ptr: every entry with that identity is dropped. */
  function WithoutHandle<T>(s: seq<Entry<T>>, h: nat): (r: seq<Entry<T>>)
    ensures |r| <= |s|
  {
    if |s| == 0 then []
    else (if s[0].handle == h then [] else [s[0]]) + WithoutHandle(s[1..], h)
  }

  lemma {:induction false} WithoutAbsentHandle<T>(s: seq<Entry<T>>, h: nat)
    requires forall i :: 0 <= i < |s| ==> s[i].handle != h
    ensures WithoutHandle(s, h) == s
  {
    if |s| > 0 {
      WithoutAbsentHandle(s[1..], h);
      assert s == [s[0]] + s[1..];
    }
  }

  /** With identities unique, erasing the identity found at `k` removes exactly position `k`. */
  lemma {:induction false} WithoutUniqueHandle<T>(s: seq<Entry<T>>, k: nat)
    requires DistinctHandles(s) && k < |s|
    ensures WithoutHandle(s, s[k].handle) == s[..k] + s[k + 1..]
  {
    var t, h := s[1..], s[k].handle;
    assert WithoutHandle(s, h) == (if s[0].handle == h then [] else [s[0]]) + WithoutHandle(t, h);
    if k == 0 {
      forall i | 0 <= i < |t| ensures t[i].handle != h {
        assert t[i] == s[i + 1];
      }
      WithoutAbsentHandle(t, h);
      assert s[k + 1..] == t;
    } else {
      assert s[0].handle != h;
      forall i, j | 0 <= i < j < |t| ensures t[i].handle != t[j].handle {
        assert t[i] == s[i + 1] && t[j] == s[j + 1];
      }
      assert t[k - 1] == s[k];
      WithoutUniqueHandle(t, k - 1);
      assert s[..k] == [s[0]] + t[..k - 1];
      assert s[k + 1..] == t[k..];
    }
  }

  /** The source's erase(remove(.., *find_if(..))) is unregistering by name. */
  lemma EraseFoundIsWithoutFirstNamed<T>(s: seq<Entry<T>>, name: string)
    requires DistinctHandles(s)
    ensures FirstNamed(s, name).Some? ==>
              (WithoutHandle(s, s[FirstNamed(s, name).value].handle) == WithoutFirstNamed(s, name))
  {
    if FirstNamed(s, name).Some? {
      WithoutUniqueHandle(s, FirstNamed(s, name).value);
    }
  }

  lemma RemovalKeepsOrder<T>(s: seq<Entry<T>>, name: string)
    ensures var r := WithoutFirstNamed(s, name);
      (FirstNamed(s, name).None? ==> r == s)
      && (FirstNamed(s, name).Some? ==>
            (|r| == |s| - 1
             && forall i :: 0 <= i < |r| ==>
                  r[i] == (if i < FirstNamed(s, name).value then s[i] else s[i + 1])))
  {
  }

  lemma DistinctAfterAppend<T>(s: seq<Entry<T>>, e: Entry<T>, bound: nat)
    requires DistinctHandles(s) && HandlesBelow(s, bound) && e.handle == bound
    ensures DistinctHandles(s + [e]) && HandlesBelow(s + [e], bound + 1)
  {
  }

  lemma {:induction false} DistinctAfterRemoval<T>(s: seq<Entry<T>>, name: string, bound: nat)
    requires DistinctHandles(s) && HandlesBelow(s, bound)
    ensures DistinctHandles(WithoutFirstNamed(s, name)) && HandlesBelow(WithoutFirstNamed(s, name), bound)
  {
    RemovalKeepsOrder(s, name);
  }
}
