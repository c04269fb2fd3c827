/**
 The ids of all keys ever made, over whole runs: distinct within one life of the process, and between
 two lives the same only for the same algorithm, second and sequence number.
 */
module KeyNames {
  import opened Wrappers
  import opened Clock
  import opened KeyRing
  import opened Sessions
  import opened Grants
  import opened Sidecar
  import opened Lifetimes

  /** A key with the life of the process it was made in. */
  datatype Made = Made(life: nat, key: Key)

  /** The key a step makes, if it makes one. */
  function MadeNow(s: State, e: Event): Option<Key> {
    match e
    case RotateKey(_, _, material) => if material.Some? then Some(NextRing(s, e).active) else None
    case Restart(ring) => Some(ring.active)
    case _ => None
  }

  function LifeAfter(e: Event, life: nat): nat {
    if e.Restart? then life + 1 else life
  }

  /** Every key made in a run, in order; `life` counts the restarts before it. */
  function KeysMade(w: World, s: State, es: seq<Event>, life: nat): seq<Made>
    decreases |es|
  {
    if es == [] then []
    else
      var rest := KeysMade(w, Step(w, s, es[0]), es[1..], LifeAfter(es[0], life));
      match MadeNow(s, es[0])
      case Some(k) => [Made(LifeAfter(es[0], life), k)] + rest
      case None => rest
  }

  /** Made later: in a later life, or in the same one with a higher number. */
  predicate Before(a: Made, b: Made) {
    a.life < b.life || (a.life == b.life && a.key.number < b.key.number)
  }

  /** Made after `made` numbers had been given out in this life. */
  predicate Beyond(life: nat, made: nat, m: Made) {
    life < m.life || (life == m.life && made < m.key.number)
  }

  lemma StepNumbers(w: World, s: State, e: Event)
    requires Allowed(w, s, e)
    ensures !e.Restart? ==> s.ring.made <= Step(w, s, e).ring.made
    ensures MadeNow(s, e).Some? ==> Step(w, s, e).ring.made == MadeNow(s, e).value.number
    ensures MadeNow(s, e).Some? && !e.Restart? ==> s.ring.made < MadeNow(s, e).value.number
  {
    if e.Restart? {
      hide InsertCode, TakeCode, CheckRefresh, AdvanceJob, Background;
    } else {
      StepKeeps(w, s, e);
      RingNumbers(w, s, Step(w, s, e));
      hide SignaturesStay, InsertCode, TakeCode, CheckRefresh, AdvanceJob, Restarted, RevokeToken, Next;
    }
  }

  lemma RingNumbers(w: World, s: State, s': State)
    requires SignaturesStay(w, s, s')
    ensures s.ring.made <= s'.ring.made
  {
    hide KeyRing.Kept;
  }

  lemma {:induction false} MadeInOrder(w: World, s: State, es: seq<Event>, life: nat)
    requires AllowedRun(w, s, es)
    ensures forall i :: 0 <= i < |KeysMade(w, s, es, life)| ==> Beyond(life, s.ring.made, KeysMade(w, s, es, life)[i])
    ensures forall i, j :: 0 <= i < j < |KeysMade(w, s, es, life)| ==> Before(KeysMade(w, s, es, life)[i], KeysMade(w, s, es, life)[j])
    decreases |es|
  {
    hide Step, Allowed, MadeNow;
    if es != [] {
      var s1, life1 := Step(w, s, es[0]), LifeAfter(es[0], life);
      StepNumbers(w, s, es[0]);
      MadeInOrder(w, s1, es[1..], life1);
      var rest := KeysMade(w, s1, es[1..], life1);
      assert KeysMade(w, s, es, life) == (match MadeNow(s, es[0]) case Some(k) => [Made(life1, k)] + rest case None => rest);
      forall i | 0 <= i < |rest| ensures Beyond(life, s.ring.made, rest[i]) {
        assert Beyond(life1, s1.ring.made, rest[i]);
      }
    }
  }

  /** Every key ever made from a start on, the first one included. */
  function AllKeys(w: World, s0: State, es: seq<Event>): seq<Made> {
    [Made(0, s0.ring.active)] + KeysMade(w, s0, es, 0)
  }

  /**
   Two keys made in the same life of the process never share an id; two made in different lives do
   exactly if they were made under the same algorithm in the same second with the same number.
   */
  lemma KidsDistinct(w: World, s0: State, es: seq<Event>, i: nat, j: nat)
    requires Init(w, s0) && AllowedRun(w, s0, es) && i < j < |AllKeys(w, s0, es)|
    ensures var a, b := AllKeys(w, s0, es)[i], AllKeys(w, s0, es)[j];
            a.key.Kid() == b.key.Kid()
            <==> a.life != b.life && a.key.alg == b.key.alg && a.key.number == b.key.number && Unix(a.key.kidClock) == Unix(b.key.kidClock)
  {
    hide AllKeys, Init, AllowedRun;
    KidIff(AllKeys(w, s0, es)[i].key, AllKeys(w, s0, es)[j].key);
    KeysInOrder(w, s0, es, i, j);
  }

  lemma KeysInOrder(w: World, s0: State, es: seq<Event>, i: nat, j: nat)
    requires Init(w, s0) && AllowedRun(w, s0, es) && i < j < |AllKeys(w, s0, es)|
    ensures Before(AllKeys(w, s0, es)[i], AllKeys(w, s0, es)[j])
  {
    hide ClockOk, KeysMade;
    MadeInOrder(w, s0, es, 0);
    var keys := AllKeys(w, s0, es);
    if i > 0 {
      assert keys[i] == KeysMade(w, s0, es, 0)[i - 1];
    }
    assert keys[j] == KeysMade(w, s0, es, 0)[j - 1];
  }
}
