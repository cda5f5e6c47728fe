/** The bounded memory of signatures already ingested, against the sliding window it stands for. */
module Dedup {

  const RECENT_SIG_CACHE: nat := 256

  /** The set answers membership; the list remembers the order of arrival. */
  datatype Cache = Cache(recent: set<string>, order: seq<string>)
  datatype Answer = Answer(cache: Cache, isNew: bool)

  const EMPTY: Cache := Cache({}, [])

  function Remembered(c: Cache, sig: string): Answer {
    if sig in c.recent then Answer(c, false)
    else
      var recent, order := c.recent + {sig}, c.order + [sig];
      if |order| <= RECENT_SIG_CACHE then Answer(Cache(recent, order), true)
      else Answer(Cache(if order[0] != "" then recent - {order[0]} else recent, order[1..]), true)
  }

  /** The cache as the feed holds it. */
  class SignatureCache {
    var recent: set<string>
    var order: seq<string>

    function View(): Cache
      reads this
    {
      Cache(recent, order)
    }

    constructor ()
      ensures View() == EMPTY
    {
      recent, order := {}, [];
    }

    method Remember(sig: string) returns (isNew: bool)
      modifies this
      ensures Answer(View(), isNew) == Remembered(old(View()), sig)
    {
      if sig in recent { return false; }
      recent := recent + {sig};
      order := order + [sig];
      if |order| > RECENT_SIG_CACHE {
        var evicted := order[0];
        order := order[1..];
        if evicted != "" {
          recent := recent - {evicted};
        }
      }
      return true;
    }
  }

  // ---------------------------------------------------------------- the window

  /** The last 256 of the accepted signatures. */
  function Window(accepted: seq<string>): seq<string> {
    if |accepted| <= RECENT_SIG_CACHE then accepted else accepted[|accepted| - RECENT_SIG_CACHE..]
  }

  /** The cache after a history: its list is the window, and its set the window plus an empty string it cannot drop. */
  ghost predicate Holds(c: Cache, accepted: seq<string>) {
    c.order == Window(accepted) && Mirrors(c.recent, c.order, accepted) && Distinct(c.order)
  }

  ghost predicate Mirrors(recent: set<string>, order: seq<string>, accepted: seq<string>) {
    forall sig :: sig in recent <==> sig in order || (sig == "" && sig in accepted)
  }

  predicate Distinct(order: seq<string>) {
    forall i, j | 0 <= i < j < |order| :: order[i] != order[j]
  }

  /** When a signature counts as new, in terms of the history alone. */
  predicate IsNew(accepted: seq<string>, sig: string) {
    sig !in Window(accepted) && !(sig == "" && sig in accepted)
  }

  lemma RememberHolds(c: Cache, accepted: seq<string>, sig: string)
    requires Holds(c, accepted)
    ensures var r := Remembered(c, sig);
            && r.isNew == IsNew(accepted, sig)
            && Holds(r.cache, if r.isNew then accepted + [sig] else accepted)
  {
    hide Mirrors, Distinct;
    assert sig in c.recent <==> !IsNew(accepted, sig) by { MirrorsMeans(c.recent, c.order, accepted, sig); }
    if sig !in c.recent {
      WindowSlides(accepted, sig);
      var order := c.order + [sig];
      Arrive(c.recent, c.order, accepted, sig);
      if |order| > RECENT_SIG_CACHE {
        assert order[0] == Window(accepted)[0];
        Evict(c.recent + {sig}, order, accepted + [sig]);
      }
    }
  }

  lemma MirrorsMeans(recent: set<string>, order: seq<string>, accepted: seq<string>, sig: string)
    requires Mirrors(recent, order, accepted)
    ensures sig in recent <==> sig in order || (sig == "" && sig in accepted)
  {}

  lemma Arrive(recent: set<string>, order: seq<string>, accepted: seq<string>, sig: string)
    requires Mirrors(recent, order, accepted) && Distinct(order) && sig !in recent
    ensures Mirrors(recent + {sig}, order + [sig], accepted + [sig]) && Distinct(order + [sig])
  {}

  lemma WindowSlides(accepted: seq<string>, sig: string)
    ensures var order := Window(accepted) + [sig];
            Window(accepted + [sig]) == if |order| > RECENT_SIG_CACHE then order[1..] else order
  {}

  /** Dropping the head of a list without duplicates drops that element and no other. */
  lemma Evict(recent: set<string>, order: seq<string>, accepted: seq<string>)
    requires Mirrors(recent, order, accepted) && Distinct(order) && order != [] && order[0] in accepted
    ensures Distinct(order[1..])
    ensures Mirrors(if order[0] != "" then recent - {order[0]} else recent, order[1..], accepted)
  {
    assert order == [order[0]] + order[1..];
    assert forall x :: x in order <==> x == order[0] || x in order[1..];
  }

  /** The answers of the cache to a run of signatures. */
  function Answers(c: Cache, sigs: seq<string>): seq<bool>
    decreases |sigs|
  {
    if sigs == [] then []
    else [Remembered(c, sigs[0]).isNew] + Answers(Remembered(c, sigs[0]).cache, sigs[1..])
  }

  /** The answers the history calls for. */
  function Expected(accepted: seq<string>, sigs: seq<string>): seq<bool>
    decreases |sigs|
  {
    if sigs == [] then []
    else
      var isNew := IsNew(accepted, sigs[0]);
      [isNew] + Expected(if isNew then accepted + [sigs[0]] else accepted, sigs[1..])
  }

  /** The answers of an ideal window of the last 256 accepted signatures. */
  function Sliding(accepted: seq<string>, sigs: seq<string>): seq<bool>
    decreases |sigs|
  {
    if sigs == [] then []
    else
      var isNew := sigs[0] !in Window(accepted);
      [isNew] + Sliding(if isNew then accepted + [sigs[0]] else accepted, sigs[1..])
  }

  /** For every sequence the cache answers from the history alone. */
  lemma {:induction false} AnswersFollowHistory(c: Cache, accepted: seq<string>, sigs: seq<string>)
    requires Holds(c, accepted)
    ensures Answers(c, sigs) == Expected(accepted, sigs)
    decreases |sigs|
  {
    hide Remembered, IsNew, Holds;
    if sigs != [] {
      var r := Remembered(c, sigs[0]);
      RememberHolds(c, accepted, sigs[0]);
      AnswersFollowHistory(r.cache, if r.isNew then accepted + [sigs[0]] else accepted, sigs[1..]);
    }
  }

  lemma {:induction false} HistoryIsWindow(accepted: seq<string>, sigs: seq<string>)
    requires "" !in sigs && "" !in accepted
    ensures Expected(accepted, sigs) == Sliding(accepted, sigs)
    decreases |sigs|
  {
    if sigs != [] {
      var isNew := IsNew(accepted, sigs[0]);
      HistoryIsWindow(if isNew then accepted + [sigs[0]] else accepted, sigs[1..]);
    }
  }

  /** On non-empty signatures the cache is the sliding window. */
  lemma CacheIsWindow(sigs: seq<string>)
    requires "" !in sigs
    ensures Answers(EMPTY, sigs) == Sliding([], sigs)
  {
    AnswersFollowHistory(EMPTY, [], sigs);
    HistoryIsWindow([], sigs);
  }

  /** One answer differs from the window's exactly for an empty signature the window has forgotten. */
  lemma DiffersFromWindow(c: Cache, accepted: seq<string>, sig: string)
    requires Holds(c, accepted)
    ensures Remembered(c, sig).isNew != (sig !in Window(accepted)) <==> sig == "" && "" in accepted && "" !in Window(accepted)
  {
    RememberHolds(c, accepted, sig);
  }

  // ---------------------------------------------------------------- the empty signature

  /** 256 distinct signatures of lengths 1 to 256. */
  function Fill(n: nat): seq<string> {
    seq(n, i requires 0 <= i < n => seq(i + 1, _ => 'x'))
  }

  /** The cache after an empty signature and n others. */
  lemma {:induction false} FillHolds(n: nat) returns (c: Cache)
    requires n <= 256
    ensures Holds(c, [""] + Fill(n))
  {
    if n == 0 {
      c := Remembered(EMPTY, "").cache;
      RememberHolds(EMPTY, [], "");
      assert [""] + Fill(0) == [] + [""];
    } else {
      var before := FillHolds(n - 1);
      var sig := Fill(n)[n - 1];
      assert Fill(n) == Fill(n - 1) + [sig];
      assert [""] + Fill(n) == [""] + Fill(n - 1) + [sig];
      forall earlier | earlier in [""] + Fill(n - 1)
        ensures |earlier| < n
      {}
      c := Remembered(before, sig).cache;
      RememberHolds(before, [""] + Fill(n - 1), sig);
    }
  }

  /** An empty signature followed by 256 others has left the window, but never leaves the set. */
  lemma EmptyIsNeverForgotten() returns (c: Cache)
    ensures Holds(c, [""] + Fill(256)) && "" !in Window([""] + Fill(256)) && !Remembered(c, "").isNew
  {
    c := FillHolds(256);
    assert Window([""] + Fill(256)) == Fill(256);
    RememberHolds(c, [""] + Fill(256), "");
  }
}
