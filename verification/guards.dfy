/** The bookkeeping behind the writer's guards for global elements: a
    `finished` flag per element, seeded false when the writer is built, and a
    lock held from an element's start to its end. The guard helpers
    themselves (validityCheckStart, writeCheck, validityCheckEnd, lock, unlock)
    belong to AbstractJsonWriter, which is not part of this model; they are
    given here the meaning their names and call sites imply: a start needs the
    element neither finished nor locked, a write needs it locked, and an end
    needs it locked and then marks it finished. */
module Guards {
  import opened Sections

  datatype Tracker = Tracker(finished: map<Global, bool>, locked: set<Global>)

  predicate IsFinished(t: Tracker, g: Global)
  {
    g in t.finished && t.finished[g]
  }

  /** Every element has a flag, and nothing locked has been finished. */
  predicate TrackerOk(t: Tracker)
  {
    && (forall g: Global :: g in t.finished)
    && (forall g | g in t.locked :: !t.finished[g])
  }

  /** The state of a freshly built writer: every element has a flag, and no
      element is finished or locked, so every element may still start. */
  function Seeded(): (t: Tracker)
    ensures TrackerOk(t)
    ensures forall g: Global :: g in t.finished && !IsFinished(t, g) && g !in t.locked
  {
    AllGlobalsComplete();
    Tracker(map g | g in AllGlobals :: false, {})
  }

  /** validityCheckStart. */
  predicate CanStart(t: Tracker, g: Global)
  {
    !IsFinished(t, g) && g !in t.locked
  }

  /** writeCheck. */
  predicate CanWrite(t: Tracker, g: Global)
  {
    g in t.locked
  }

  /** validityCheckEnd. */
  predicate CanEnd(t: Tracker, g: Global)
  {
    g in t.locked
  }

  /** lock: taken right after a start passed its check. */
  function Lock(t: Tracker, g: Global): (r: Tracker)
    requires CanStart(t, g)
    ensures TrackerOk(t) ==> TrackerOk(r)
    ensures r.locked == t.locked + {g} && |r.locked| == |t.locked| + 1
    ensures forall h: Global :: IsFinished(r, h) == IsFinished(t, h)
  {
    Tracker(t.finished, t.locked + {g})
  }

  /** validityCheckEnd's effect and unlock: the element is finished and released. */
  function Finish(t: Tracker, g: Global): (r: Tracker)
    requires CanEnd(t, g)
    ensures TrackerOk(t) ==> TrackerOk(r)
    ensures r.locked == t.locked - {g} && |r.locked| == |t.locked| - 1
    ensures IsFinished(r, g) && !CanStart(r, g) && !CanWrite(r, g) && !CanEnd(r, g)
    ensures forall h: Global | h != g :: IsFinished(r, h) == IsFinished(t, h)
  {
    assert t.locked == (t.locked - {g}) + {g};
    Tracker(t.finished[g := true], t.locked - {g})
  }
}
