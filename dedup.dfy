/**
 * The bridge's inbound deduplicator, as a function of the arrival history.
 * A key is admitted, stays in the processed set for `Window` milliseconds
 * (its deletion timer), and is admissible again once deleted.
 */
module Dedup {
  import opened Wrappers
  import opened Text
  import opened Js

  /** Milliseconds a processed key is kept (the `setTimeout(..., 5000)` deletion). */
  const Window: int := 5000

  /** An inbound output with dedup key `key`, arriving at clock time `at`. */
  datatype Arrival = Arrival(key: string, at: int)

  /**
   * The dedup key `${type}_${npcName || ''}_${content?.trim() || ''}` of an
   * object payload; `None` when `content` is neither a string nor nullish,
   * where `content.trim` is not a function and the handler throws.
   */
  function DedupKey(d: JsValue): (r: Option<string>)
    ensures r.Some? <==> (Get(d, "content").Str? || Get(d, "content").Undefined? || Get(d, "content").Null?)
    ensures Get(d, "content").Str? && r.Some? ==>
      r.value == ToJsString(Get(d, "type")) + "_" + NameLabel(d) + "_" + Trim(Get(d, "content").s)
  {
    var content := Get(d, "content");
    if content.Str? then Some(ToJsString(Get(d, "type")) + "_" + NameLabel(d) + "_" + Trim(content.s))
    else if content.Undefined? || content.Null? then Some(ToJsString(Get(d, "type")) + "_" + NameLabel(d) + "_")
    else None
  }

  /** `npcName || ''` rendered into the key. */
  function NameLabel(d: JsValue): string {
    var name := Get(d, "npcName");
    if Truthy(name) then ToJsString(name) else ""
  }

  /** The processed set at time `now`: every key whose deletion timer has not fired yet. */
  function Expire(seen: map<string, int>, now: int): (r: map<string, int>)
    ensures forall k :: k in r <==> k in seen && seen[k] > now
    ensures forall k :: k in r ==> r[k] == seen[k]
  {
    map k | k in seen && seen[k] > now :: seen[k]
  }

  predicate Nondecreasing(arrivals: seq<Arrival>) {
    forall i, j :: 0 <= i < j < |arrivals| ==> arrivals[i].at <= arrivals[j].at
  }

  /**
   * The processed keys (with the time their deletion fires) after `arrivals`:
   * at each arrival the expired keys are gone, and an absent key is added.
   */
  function Seen(arrivals: seq<Arrival>): map<string, int>
    decreases |arrivals|
  {
    if arrivals == [] then map[]
    else
      var a := arrivals[|arrivals| - 1];
      var live := Expire(Seen(arrivals[..|arrivals| - 1]), a.at);
      if a.key in live then live else live[a.key := a.at + Window]
  }

  /** Arrival `j` is emitted on the bus: its key was not in the processed set. */
  predicate Published(arrivals: seq<Arrival>, j: nat)
    requires j < |arrivals|
  {
    arrivals[j].key !in Expire(Seen(arrivals[..j]), arrivals[j].at)
  }

  /**
   * A key is live after `arrivals` at any time `t` from the last arrival on
   * exactly when some published arrival of that key is less than a window old.
   */
  lemma {:induction false} LiveIff(arrivals: seq<Arrival>, key: string, t: int)
    requires Nondecreasing(arrivals)
    requires arrivals != [] ==> arrivals[|arrivals| - 1].at <= t
    ensures (key in Seen(arrivals) && Seen(arrivals)[key] > t) <==>
            exists i :: 0 <= i < |arrivals| && Published(arrivals, i)
                        && arrivals[i].key == key && t < arrivals[i].at + Window
    decreases |arrivals|
  {
    if arrivals != [] {
      var n := |arrivals|;
      var p := arrivals[..n - 1];
      var a := arrivals[n - 1];
      assert Nondecreasing(p);
      assert p != [] ==> p[|p| - 1].at <= a.at <= t;
      forall i | 0 <= i < n - 1
        ensures Published(p, i) == Published(arrivals, i)
      {
        assert p[..i] == arrivals[..i];
      }
      assert arrivals[..n - 1] == p;
      LiveIff(p, key, t);
      var live := Expire(Seen(p), a.at);
      if key == a.key && a.key !in live {
        assert Published(arrivals, n - 1);
        assert Seen(arrivals)[key] == a.at + Window;
        if a.at + Window <= t {
          forall i | 0 <= i < n && arrivals[i].key == key
            ensures t >= arrivals[i].at + Window
          {
            assert arrivals[i].at <= a.at;
          }
        }
      } else {
        assert key in Seen(arrivals) <==> key in live;
        assert key in live ==> Seen(arrivals)[key] == live[key];
        if key == a.key {
          assert !Published(arrivals, n - 1);
        }
      }
    }
  }

  /**
   * The dedup window, both directions: an output is emitted exactly when no
   * earlier emitted output with the same key arrived less than `Window` ago.
   */
  lemma {:induction false} PublishedIff(arrivals: seq<Arrival>, j: nat)
    requires Nondecreasing(arrivals)
    requires j < |arrivals|
    ensures Published(arrivals, j) <==>
            !exists i :: 0 <= i < j && Published(arrivals, i)
                         && arrivals[i].key == arrivals[j].key && arrivals[j].at < arrivals[i].at + Window
  {
    var q := arrivals[..j];
    assert Nondecreasing(q);
    forall i | 0 <= i < j
      ensures Published(q, i) == Published(arrivals, i)
    {
      assert q[..i] == arrivals[..i];
    }
    LiveIff(q, arrivals[j].key, arrivals[j].at);
  }

  /** Two outputs with the same key less than a window apart: the later one is not emitted. */
  lemma DuplicateWithinWindowDropped(arrivals: seq<Arrival>, i: nat, j: nat)
    requires Nondecreasing(arrivals)
    requires i < j < |arrivals| && Published(arrivals, i)
    requires arrivals[i].key == arrivals[j].key && arrivals[j].at < arrivals[i].at + Window
    ensures !Published(arrivals, j)
  {
    PublishedIff(arrivals, j);
  }

  /** Expiring at a later time subsumes expiring at an earlier one. */
  lemma ExpireTwice(seen: map<string, int>, t1: int, t2: int)
    requires t1 <= t2
    ensures Expire(Expire(seen, t1), t2) == Expire(seen, t2)
  {
    assert forall k :: k in Expire(Expire(seen, t1), t2) <==> k in Expire(seen, t2);
  }

  /** Nothing expires from a set whose deletion timers all fire after `t`. */
  lemma ExpireNothing(seen: map<string, int>, t: int)
    requires forall k :: k in seen ==> seen[k] > t
    ensures Expire(seen, t) == seen
  {
    assert forall k :: k in Expire(seen, t) <==> k in seen;
  }

  /**
   * The `processedMessages` set with its deletion timers: each entry maps a
   * key to the clock time its timer fires. `arrivals` is the history the
   * table is a function of.
   */
  class Deduplicator {
    var processed: map<string, int>
    /** The clock, in milliseconds. */
    var now: int
    ghost var arrivals: seq<Arrival>

    ghost predicate Valid()
      reads this
    {
      Nondecreasing(arrivals)
      && (arrivals != [] ==> arrivals[|arrivals| - 1].at <= now)
      && processed == Expire(Seen(arrivals), now)
    }

    constructor()
      ensures Valid() && processed == map[] && now == 0 && arrivals == []
    {
      processed, now, arrivals := map[], 0, [];
    }

    /** The `has` check and `add` for one arriving key; `isNew` says the output goes on. */
    method Admit(key: string) returns (isNew: bool)
      requires Valid()
      modifies this
      ensures Valid() && now == old(now)
      ensures arrivals == old(arrivals) + [Arrival(key, now)]
      ensures isNew <==> key !in old(processed)
      ensures isNew <==> Published(arrivals, |arrivals| - 1)
      ensures processed == if isNew then old(processed)[key := now + Window] else old(processed)
    {
      ghost var before := arrivals;
      arrivals := arrivals + [Arrival(key, now)];
      assert arrivals[..|before|] == before;
      ExpireNothing(processed, now);
      if key in processed {
        assert Seen(arrivals) == processed;
        return false;
      }
      processed := processed[key := now + Window];
      assert Seen(arrivals) == processed;
      ExpireNothing(processed, now);
      isNew := true;
    }

    /** The clock advances by `dt`; every deletion timer that is due fires. */
    method Advance(dt: nat)
      requires Valid()
      modifies this
      ensures Valid() && arrivals == old(arrivals)
      ensures now == old(now) + dt
      ensures processed == Expire(old(processed), now)
    {
      ExpireTwice(Seen(arrivals), now, now + dt);
      now := now + dt;
      processed := Expire(processed, now);
    }
  }
}
