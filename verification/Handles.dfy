// Counted handles.
//
// proxy_t, global_base_t and event_loop_t are all the same shape: a C++ object
// that stores a C pointer and a pointer to a shared data record, whose counter is
// meant to say how many such objects store that data pointer.  This module
// defines "how many" once, as the cardinality of a set of storage locations, and
// says how the set changes when one location is written or goes away.

module Handles {
  import opened Common

  // A C++ handle object: the C pointer, the data pointer and, for proxies, the
  // wrapper type.  `S` below is the type of the locations handles are stored in.
  datatype Handle<T> = Handle(ptr: Option<nat>, data: Option<nat>, typ: T)

  // The locations whose handle stores the data pointer d.
  function Holders<S, T>(slots: map<S, Handle<T>>, d: nat): (holders: set<S>)
  {
    set k | k in slots && slots[k].data == Some(d)
  }

  lemma HoldersAfterWrite<S, T>(slots: map<S, Handle<T>>, k: S, h: Handle<T>, d: nat)
    ensures |Holders(slots[k := h], d)|
         == |Holders(slots, d)|
            - (if k in slots && slots[k].data == Some(d) then 1 else 0)
            + (if h.data == Some(d) then 1 else 0)
  {
    var before, after := Holders(slots, d), Holders(slots[k := h], d);
    if h.data == Some(d) {
      assert after == before + {k};
    } else {
      assert after == before - {k};
    }
  }

  lemma HoldersAfterRemove<S, T>(slots: map<S, Handle<T>>, k: S, d: nat)
    ensures |Holders(slots - {k}, d)|
         == |Holders(slots, d)| - (if k in slots && slots[k].data == Some(d) then 1 else 0)
  {
    assert Holders(slots - {k}, d) == Holders(slots, d) - {k};
  }

  lemma HolderCounts<S, T>(slots: map<S, Handle<T>>, k: S, d: nat)
    requires k in slots && slots[k].data == Some(d)
    ensures |Holders(slots, d)| >= 1
  {
    var holders := Holders(slots, d);
    assert |holders| == |holders - {k}| + 1;
  }

  lemma NoHolders<S, T>(slots: map<S, Handle<T>>, d: nat)
    requires |Holders(slots, d)| == 0
    ensures forall k :: k in slots ==> slots[k].data != Some(d)
  {
    forall k | k in slots ensures slots[k].data != Some(d) {
      if slots[k].data == Some(d) {
        HolderCounts(slots, k, d);
      }
    }
  }
}
