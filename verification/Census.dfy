/** How many worker runs have a property, and how a step changes that number. */
module Census {
  import opened Protocol

  type RunProperty = WorkerRun -> bool

  function Those(runs: map<Id, WorkerRun>, p: RunProperty): set<Id> {
    set r | r in runs && p(runs[r])
  }

  function Count(runs: map<Id, WorkerRun>, p: RunProperty): nat {
    |Those(runs, p)|
  }

  /** 1 when the condition holds. */
  function One(holds: bool): nat {
    if holds then 1 else 0
  }

  lemma CountOne(all: set<Id>, rest: set<Id>, r: Id, holds: bool)
    requires r !in rest && all == if holds then rest + {r} else rest
    ensures |all| == |rest| + One(holds)
  {
  }

  lemma ThosePut(runs: map<Id, WorkerRun>, p: RunProperty, r: Id, run: WorkerRun)
    ensures Those(runs[r := run], p) == if p(run) then Those(runs - {r}, p) + {r} else Those(runs - {r}, p)
  {
  }

  lemma CountPut(runs: map<Id, WorkerRun>, p: RunProperty, r: Id, run: WorkerRun)
    ensures Count(runs[r := run], p) + One(r in runs && p(runs[r])) == Count(runs, p) + One(p(run))
  {
    ThosePut(runs, p, r, run);
    CountOne(Those(runs[r := run], p), Those(runs - {r}, p), r, p(run));
    CountDrop(runs, p, r);
  }

  lemma CountDrop(runs: map<Id, WorkerRun>, p: RunProperty, r: Id)
    ensures Count(runs - {r}, p) + One(r in runs && p(runs[r])) == Count(runs, p)
  {
    assert Those(runs, p) == if r in runs && p(runs[r]) then Those(runs - {r}, p) + {r} else Those(runs - {r}, p);
    CountOne(Those(runs, p), Those(runs - {r}, p), r, r in runs && p(runs[r]));
  }

  /** The runs after a worker step. */
  lemma CountApply(s: State, r: Id, d: Delta, p: RunProperty)
    requires CanStep(s, r)
    ensures Count(Apply(s, r, d).runs, p) + One(p(s.runs[r])) ==
            Count(s.runs, p) + One(d.pc.Some? && p(s.runs[r].(pc := d.pc.value)))
  {
    if d.pc.Some? {
      CountPut(s.runs, p, r, s.runs[r].(pc := d.pc.value));
    } else {
      CountDrop(s.runs, p, r);
    }
  }
}
