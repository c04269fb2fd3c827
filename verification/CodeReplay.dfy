/**
 Replaying an authorization code: over any continuation of any run, with any number of exchange
 handlers overlapping, a code passes the checks at most once, and after one authenticated look-up
 no request finds it again.
 */
module CodeReplay {
  import opened Wrappers
  import opened Base64Url
  import opened Grants
  import opened Sidecar
  import opened SingleUse
  import opened Provenance

  // ---- what is never forgotten ----

  ghost predicate Remembers(s: State, s': State) {
    s.log.looked <= s'.log.looked && s.log.redeemed.Keys <= s'.log.redeemed.Keys
  }

  lemma LogInRemembers(w: World, s: State, e: Event)
    requires e.LogIn? && Allowed(w, s, e)
    ensures Remembers(s, InsertCode(w, s, e))
  {
    InsertEffect(w, s, e);
    hide InsertCode, NewAuthCode, ValidateAuthRequest, Encode;
  }

  lemma TakeRemembers(w: World, s: State, job: nat, x: Exchange)
    ensures Remembers(s, TakeCode(w, s, job, x))
  {
    hide AuthenticateClient, Take;
    if AuthenticateClient(w.clients, x.credentials).Some? {
      TakeEffect(s, job, x, AuthenticateClient(w.clients, x.credentials).value);
    }
  }

  lemma AdvanceRemembers(w: World, s: State, job: nat, random: seq<Byte>)
    ensures Remembers(s, AdvanceJob(w, s, job, random))
  {
    hide Issue, Redeem, RevokeForRefresh, Encode, StoredRow, Follows;
    if job in s.jobs {
      match s.jobs[job]
      case Looked(x, client, ac) => RedeemEffect(w, s, job, x, client, ac);
      case Validated(client, token, sess, root) => RevokeRefreshEffect(w, s, job, client, token, sess, root);
      case Issuing(g, resp, stage) => IssueEffect(w, s, job, g, resp, stage, random);
    }
  }

  lemma ActRemembers(w: World, s: State, e: Event)
    requires Allowed(w, s, e)
    ensures Remembers(s, Act(w, s, e))
  {
    hide InsertCode, TakeCode, CheckRefresh, AdvanceJob, Background, Encode;
    match e
    case LogIn(_, _, _, _, _, _) => LogInRemembers(w, s, e);
    case BeginExchange(job, x) => TakeRemembers(w, s, job, x);
    case BeginRefresh(job, token, credentials) => CheckEffect(w, s, job, token, credentials);
    case Advance(job, random, _) => AdvanceRemembers(w, s, job, random);
    case Restart(_) =>
    case _ => BackgroundEffect(w, s, e);
  }

  lemma StepRemembers(w: World, s: State, e: Event)
    requires Allowed(w, s, e)
    ensures Remembers(s, Step(w, s, e))
  {
    StepIs(w, s, e);
    ActRemembers(w, s, e);
    hide Act, Step, Saves;
  }

  lemma {:induction false} RunRemembers(w: World, s: State, es: seq<Event>)
    requires AllowedRun(w, s, es)
    ensures Remembers(s, Run(w, s, es))
    decreases |es|
  {
    hide Step, Allowed;
    if es != [] {
      StepRemembers(w, s, es[0]);
      RunRemembers(w, Step(w, s, es[0]), es[1..]);
    }
  }

  // ---- one redemption ----

  /** In this state, this event is a handler passing the checks on this code. */
  predicate Passes(w: World, s: State, e: Event, code: string) {
    && e.Advance? && e.job in s.jobs && s.jobs[e.job].Looked? && s.jobs[e.job].x.code == code
    && CheckExchange(w.lib, s.jobs[e.job].ac, s.jobs[e.job].client, s.jobs[e.job].x, s.now).None?
  }

  lemma PassIsRecorded(w: World, s: State, e: Event, code: string)
    requires Passes(w, s, e, code)
    ensures code in Step(w, s, e).log.redeemed
  {
    hide CheckExchange, InsertCode, TakeCode, CheckRefresh, Background, Restarted, Issue, RevokeForRefresh;
    RedeemEffect(w, s, e.job, s.jobs[e.job].x, s.jobs[e.job].client, s.jobs[e.job].ac);
  }

  /**
   A code passes the checks at most once in any run: when an exchange passes in a reachable state,
   no later step of any continuation passes with the same code.
   */
  lemma PassesOnce(w: World, s: State, e: Event, es: seq<Event>, again: Event, code: string)
    requires WellConfigured(w) && Reachable(w, s) && Passes(w, s, e, code)
    requires AllowedRun(w, s, [e] + es)
    ensures !Passes(w, Run(w, Step(w, s, e), es), again, code)
  {
    var s1 := Step(w, s, e);
    var s2 := Run(w, s1, es);
    assert ([e] + es)[1..] == es;
    PassIsRecorded(w, s, e, code);
    ReachableKept(w, s);
    StepKept(w, s, e);
    RunKept(w, s1, es);
    RunRemembers(w, s1, es);
    hide Step, Run, AllowedRun, Reachable, WellConfigured, Traced, Once, CheckExchange;
    if Passes(w, s2, again, code) {
      NotYetRedeemed(s2, again.job, s2.jobs[again.job].x, s2.jobs[again.job].client, s2.jobs[again.job].ac);
    }
  }

  /** Seen from any reachable state: two handlers never redeem the same code, so they never issue two token sets for it. */
  lemma OneHandlerPerCode(w: World, s: State, i: nat, j: nat)
    requires WellConfigured(w) && Reachable(w, s) && i in s.log.started && j in s.log.started
    requires s.log.started[i] == s.log.started[j]
    ensures i == j
  {
    ReachableKept(w, s);
    assert TakenBy(s, s.log.started[i], i) && TakenBy(s, s.log.started[j], j);
  }

  // ---- one look-up ----

  /**
   What presenting a stored code does: the code leaves the table exactly when the request carries
   a verifier and its client authenticates, whatever becomes of the exchange afterwards.
   */
  lemma PresentationConsumes(w: World, s: State, job: nat, x: Exchange)
    requires x.code in s.codes
    ensures var s' := Step(w, s, BeginExchange(job, x));
            && (x.code !in s'.codes <==> x.code != "" && x.verifier != "" && AuthenticateClient(w.clients, x.credentials).Some?)
            && (x.code !in s'.codes ==> s'.codes == s.codes - {x.code} && x.code in s'.log.looked)
            && (x.code in s'.codes ==> s' == s)
  {
    hide AuthenticateClient, InsertCode, CheckRefresh, AdvanceJob, Background, Restarted, Take;
    if AuthenticateClient(w.clients, x.credentials).Some? {
      TakeEffect(s, job, x, AuthenticateClient(w.clients, x.credentials).value);
    }
  }

  /** So presenting a code is not enough to consume it: every stored code survives some presentation. */
  lemma PresentationMayKeep(w: World, s: State, code: string, job: nat)
    requires code in s.codes
    ensures exists x: Exchange :: x.code == code && code in Step(w, s, BeginExchange(job, x)).codes
  {
    hide Step;
    var x := Exchange(code, "", "", Credentials("", "", None));
    PresentationConsumes(w, s, job, x);
    assert x.code == code && code in Step(w, s, BeginExchange(job, x)).codes;
  }

  /**
   Once an authenticated request has looked a code up, whatever came of it, the code is in no later
   table, so no later request starts a handler with it.
   */
  lemma LookedUpIsGone(w: World, s: State, es: seq<Event>, job: nat, x: Exchange)
    requires WellConfigured(w) && Reachable(w, s) && AllowedRun(w, s, es) && x.code in s.log.looked
    ensures var later := Run(w, s, es);
            && x.code !in later.codes
            && Step(w, later, BeginExchange(job, x)).jobs == later.jobs
            && Step(w, later, BeginExchange(job, x)).codes == later.codes
  {
    var later := Run(w, s, es);
    ReachableKept(w, s);
    RunKept(w, s, es);
    RunRemembers(w, s, es);
    assert x.code in later.codes ==> Untouched(later, x.code);
    LookupMisses(w, later, job, x);
  }

  lemma LookupMisses(w: World, s: State, job: nat, x: Exchange)
    requires x.code !in s.codes
    ensures var s' := Step(w, s, BeginExchange(job, x)); s'.jobs == s.jobs && s'.codes == s.codes
  {
    hide AuthenticateClient, InsertCode, CheckRefresh, AdvanceJob, Background, Restarted, Take;
    if AuthenticateClient(w.clients, x.credentials).Some? {
      TakeEffect(s, job, x, AuthenticateClient(w.clients, x.credentials).value);
    }
  }
}
