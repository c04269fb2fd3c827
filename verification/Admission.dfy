/**
 Who gets in: over every run, codes are issued only for requests that OAuth 2.1 allows, and only a client
 that is public or shows its own secret takes a code, enters a refresh or revokes a token.
 */
module Admission {
  import opened Wrappers
  import opened Base64Url
  import opened Grants
  import opened Stores
  import opened Sidecar
  import opened Provenance

  /** No registered client has this id, or it is confidential and its secret is another. */
  predicate Unproven(clients: Registry, c: Credentials) {
    var (id, secret) := match c.basic
                        case Some(pair) => pair
                        case None => (c.bodyID, c.bodySecret);
    id !in clients || (!clients[id].public && clients[id].secret != secret)
  }

  lemma UnprovenIsNone(clients: Registry, c: Credentials)
    requires Unproven(clients, c)
    ensures AuthenticateClient(clients, c) == None
  {
    if AuthenticateClient(clients, c).Some? {
      AuthenticatesExactly(clients, c, AuthenticateClient(clients, c).value);
    }
  }

  /** An unknown client, or a wrong secret for a confidential one: nothing changes, whatever is asked for. */
  lemma WrongSecretChangesNothing(w: World, s: State, c: Credentials, job: nat, x: Exchange, token: string, saved: bool)
    requires Unproven(w.clients, c) && x.credentials == c
    ensures Step(w, s, BeginExchange(job, x)) == s
    ensures Step(w, s, BeginRefresh(job, token, c)) == s
    ensures Step(w, s, Revoke(token, c, saved)) == s
  {
    UnprovenIsNone(w.clients, c);
    hide AuthenticateClient, HashToken, Take, EnterRefresh;
  }

  /**
   In every reachable state the client of every handler and of every redemption and refresh on record
   proved itself: its id was shown, and it is public or its secret was shown.
   */
  lemma ClientsProved(w: World, s: State)
    requires WellConfigured(w) && Reachable(w, s)
    ensures forall j :: j in s.jobs && s.jobs[j].Looked? ==> Proves(w.clients, s.jobs[j].x.credentials, s.jobs[j].client)
    ensures forall c :: c in s.log.redeemed ==> Proves(w.clients, s.log.redeemed[c].credentials, s.log.redeemed[c].client)
    ensures forall j :: j in s.log.presented ==>
      var p := s.log.presented[j]; Proves(w.clients, p.credentials, p.client) && p.sess.clientID == p.client.id
  {
    ReachableKept(w, s);
    hide Reachable, WellConfigured, Proves;
    forall j | j in s.jobs && s.jobs[j].Looked? ensures Proves(w.clients, s.jobs[j].x.credentials, s.jobs[j].client) {
      assert JobFrom(w, s, s.jobs[j]);
    }
    forall c | c in s.log.redeemed ensures Proves(w.clients, s.log.redeemed[c].credentials, s.log.redeemed[c].client) {
      assert RedeemedOk(w, s, c);
    }
    forall j | j in s.log.presented ensures PresentationOk(w, s.log.presented[j]) {}
  }

  /** In every reachable state every code that is stored, like every login on record, is for a request OAuth 2.1 allows, and holds what was asked for. */
  lemma CodesAreProper(w: World, s: State, code: string)
    requires WellConfigured(w) && Reachable(w, s) && (code in s.codes || code in s.log.logins)
    ensures code in s.log.logins && (code in s.codes ==> s.codes[code] == s.log.logins[code].code)
    ensures var login := s.log.logins[code];
            && login.query.clientID in w.clients && login.query.redirectURI in w.clients[login.query.clientID].redirectURIs
            && login.query.responseType == "code" && login.query.codeChallenge != "" && login.query.codeChallengeMethod == "S256"
            && w.authenticate(login.username, login.password) == Some(login.code.subject)
            && login.code.clientID == login.query.clientID && login.code.redirectURI == login.query.redirectURI
            && login.code.codeChallenge == login.query.codeChallenge && login.code.scope == login.query.scope
            && login.code.nonce == login.query.nonce && login.code.authTime == login.at
            && login.code.expiresAt == login.storedAt + w.cfg.authCodeTTL && login.at <= login.storedAt <= s.now
  {
    ReachableKept(w, s);
    hide Reachable, WellConfigured;
    if code in s.codes { assert CodeFrom(s, code); }
    assert LoginOk(w, s, s.log.logins[code]);
  }

  /** And every proper request is accepted: with the right credentials of a user, the step stores its code. */
  lemma ProperRequestStores(w: World, s: State, e: Event)
    requires e.LogIn? && ProperRequest(w.clients, e.query) && w.authenticate(e.username, e.password).Some?
    ensures Encode(e.random) in Step(w, s, e).codes && Step(w, s, e).log.logins[Encode(e.random)].query == e.query
  {
    AcceptsExactly(w.clients, e.query);
    hide ValidateAuthRequest, NewAuthCode, Encode, ProperRequest;
  }

  /** Any other request, or other credentials, leave everything as it is. */
  lemma ImproperRequestChangesNothing(w: World, s: State, e: Event)
    requires e.LogIn? && (!ProperRequest(w.clients, e.query) || w.authenticate(e.username, e.password).None?)
    ensures Step(w, s, e) == s
  {
    AcceptsExactly(w.clients, e.query);
    hide ValidateAuthRequest, NewAuthCode, Encode, ProperRequest;
  }
}
