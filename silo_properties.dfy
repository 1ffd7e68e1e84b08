/**
 * What the admission cache guarantees across calls: the order of its checks,
 * replay of cached responses, suppression of duplicate approval prompts,
 * refusals, and what the cache holds after a response.
 */
module SiloProperties {
  import opened Wrappers
  import opened Json
  import opened Responses
  import opened Requests
  import opened Silo

  /** A session that is not registered is refused and nothing changes: no cache, no marker, no event. */
  lemma UnregisteredSessionChangesNothing(env: Env, cfg: Config, s: Session, req: Request, now: int, st: SiloState)
    requires s.id !in st.sessions
    ensures HandleSpec(env, cfg, s, req, now, st) == Handled(st, Some(SessionRemoved))
  {
  }

  /**
   * An unpair request removes the session before the time check and before
   * any cache lookup: whatever the clock and the cache say, the session is
   * gone, the only event is the unpairing and the caller sees SessionRemoved.
   */
  lemma UnpairComesFirst(env: Env, cfg: Config, s: Session, req: Request, now: int, st: SiloState)
    requires s.id in st.sessions && req.unpair.Some?
    ensures HandleSpec(env, cfg, s, req, now, st)
         == Handled(st.(sessions := st.sessions - {s.id}, events := st.events + [Unpaired(s.id)]), Some(SessionRemoved))
  {
  }

  /** Once unpaired, a session's later requests are all refused without effect. */
  lemma UnpairedSessionStaysRemoved(env1: Env, env2: Env, cfg: Config, s: Session, req1: Request, req2: Request,
                                    now1: int, now2: int, st: SiloState)
    requires s.id in st.sessions && req1.unpair.Some?
    ensures var h1 := HandleSpec(env1, cfg, s, req1, now1, st);
      HandleSpec(env2, cfg, s, req2, now2, h1.state) == Handled(h1.state, Some(SessionRemoved))
  {
  }

  /** A request outside the tolerance window is refused and nothing at all changes. */
  lemma StaleRequestChangesNothing(env: Env, cfg: Config, s: Session, req: Request, now: int, st: SiloState)
    requires s.id in st.sessions && req.unpair.None? && Abs(now - req.unixSeconds) > cfg.tolerance
    ensures HandleSpec(env, cfg, s, req, now, st) == Handled(st, Some(InvalidRequestTime))
  {
  }

  /** A time difference of exactly the tolerance is accepted. */
  lemma ToleranceBoundaryAccepted(env: Env, cfg: Config, s: Session, req: Request, st: SiloState)
    requires s.id in st.sessions && req.unpair.None?
    ensures HandleSpec(env, cfg, s, req, req.unixSeconds + cfg.tolerance, st).error != Some(InvalidRequestTime)
    ensures HandleSpec(env, cfg, s, req, req.unixSeconds - cfg.tolerance, st).error != Some(InvalidRequestTime)
  {
  }

  /**
   * A cache hit replays: the cached response is decoded and sent, and
   * nothing else happens. No approval routing, no marker, no signature, no
   * notification.
   */
  lemma CacheHitOnlyResends(env: Env, cfg: Config, s: Session, req: Request, now: int, st: SiloState)
    requires s.id in st.sessions && req.unpair.None? && Abs(now - req.unixSeconds) <= cfg.tolerance
    requires CacheKey(s, req) in Purge(st.cache, now)
    ensures var h := HandleSpec(env, cfg, s, req, now, st);
      && h.state.pending == st.pending && h.state.cache == Purge(st.cache, now)
      && Unsigned(h.state.events[|st.events|..])
      && (match DecodeResponse(st.cache[CacheKey(s, req)].value, cfg.b64, cfg.versions)
          case Success(r) => h.error.None? && h.state.events == st.events + [Sent(s.id, r)]
          case Failure(e) => h.error == Some(CachedResponseUnreadable(e)) && h.state.events == st.events)
  {
    var h := HandleSpec(env, cfg, s, req, now, st);
    assert Purge(st.cache, now)[CacheKey(s, req)] == st.cache[CacheKey(s, req)];
    match DecodeResponse(st.cache[CacheKey(s, req)].value, cfg.b64, cfg.versions)
    case Success(r) =>
      assert h.state.events[|st.events|..] == [Sent(s.id, r)];
    case Failure(e) =>
      assert h.state.events[|st.events|..] == [];
  }

  /** The first handle of a request went all the way to a fresh response. */
  predicate AnsweredFresh(env: Env, cfg: Config, s: Session, req: Request, now: int, st: SiloState) {
    && s.id in st.sessions && req.unpair.None? && Abs(now - req.unixSeconds) <= cfg.tolerance
    && CacheKey(s, req) !in Purge(st.cache, now)
    && !NeedsApproval(env, req) && !IsNoOp(req)
    && HandleSpec(env, cfg, s, req, now, st).error.None?
  }

  /** The response a successful fresh handle sent, which is the last event it recorded. */
  lemma FreshAnswerSendsItsResponse(env: Env, cfg: Config, s: Session, req: Request, now: int, st: SiloState)
    requires AnsweredFresh(env, cfg, s, req, now, st)
    ensures var st1 := st.(cache := Purge(st.cache, now));
      var o := ResponseForSpec(env, cfg, s, req, true, now, st1);
      var h := HandleSpec(env, cfg, s, req, now, st);
      && o.result.Success?
      && h.state.cache == o.state.cache
      && h.state.events[|h.state.events| - 1] == Sent(s.id, o.result.value)
  {
  }

  /**
   * A response built for a request whose me part (if any) asks for a PGP key
   * decodes from its cached encoding to itself.
   */
  lemma FreshResponseDecodes(env: Env, cfg: Config, s: Session, req: Request, allowed: bool, now: int, st: SiloState)
    requires RoundTrips(cfg.b64) && RoundTrips(cfg.versions)
    requires req.me.Some? ==> req.me.value.pgpUserId.Some?
    requires ResponseForSpec(env, cfg, s, req, allowed, now, st).result.Success?
    ensures var r := ResponseForSpec(env, cfg, s, req, allowed, now, st).result.value;
      DecodeResponse(ResponseObject(r, cfg.b64, cfg.versions), cfg.b64, cfg.versions) == Success(r)
  {
    var r := ResponseForSpec(env, cfg, s, req, allowed, now, st).result.value;
    ResponseRoundTrip(r, cfg.b64, cfg.versions);
  }

  /**
   * Replay idempotence: once a request was answered, handling it again — at
   * any moment the time check lets it through — sends the very same response
   * again and does nothing else. In particular no new signature is made,
   * whatever the collaborators would answer this time.
   */
  lemma HandleTwiceSendsSameResponse(env1: Env, env2: Env, cfg: Config, s: Session, req: Request,
                                     now1: int, now2: int, st: SiloState)
    requires RoundTrips(cfg.b64) && RoundTrips(cfg.versions)
    requires req.me.Some? ==> req.me.value.pgpUserId.Some?
    requires AnsweredFresh(env1, cfg, s, req, now1, st)
    requires Abs(now2 - req.unixSeconds) <= cfg.tolerance
    ensures var h1 := HandleSpec(env1, cfg, s, req, now1, st);
      var h2 := HandleSpec(env2, cfg, s, req, now2, h1.state);
      && h2.error.None?
      && h2.state.events == h1.state.events + [h1.state.events[|h1.state.events| - 1]]
      && h2.state.pending == h1.state.pending
  {
    var h1 := HandleSpec(env1, cfg, s, req, now1, st);
    var st1 := st.(cache := Purge(st.cache, now1));
    var o := ResponseForSpec(env1, cfg, s, req, true, now1, st1);
    FreshAnswerSendsItsResponse(env1, cfg, s, req, now1, st);
    var r := o.result.value;
    var key := CacheKey(s, req);
    var entry := Expiring(ResponseObject(r, cfg.b64, cfg.versions), ExpiresAt(now1, cfg.tolerance));
    assert h1.state.cache[key] == entry;
    assert IsLive(entry, now2);
    assert key in Purge(h1.state.cache, now2);
    FreshResponseDecodes(env1, cfg, s, req, true, now1, st1);
    CacheHitOnlyResends(env2, cfg, s, req, now2, h1.state);
  }

  /**
   * The me part of a response is only cached faithfully with a PGP key: when
   * the first answer to a me request that asked for no PGP user id is
   * replayed, the cached response does not decode and the retry fails.
   */
  lemma ReplayOfMeWithoutPgpKeyFails(env1: Env, env2: Env, cfg: Config, s: Session, req: Request,
                                     now1: int, now2: int, st: SiloState)
    requires RoundTrips(cfg.b64) && RoundTrips(cfg.versions)
    requires req.me.Some? && req.me.value.pgpUserId.None?
    requires AnsweredFresh(env1, cfg, s, req, now1, st)
    requires Abs(now2 - req.unixSeconds) <= cfg.tolerance
    ensures var h1 := HandleSpec(env1, cfg, s, req, now1, st);
      HandleSpec(env2, cfg, s, req, now2, h1.state).error == Some(CachedResponseUnreadable(MissingField("pgp_pk")))
  {
    var h1 := HandleSpec(env1, cfg, s, req, now1, st);
    var st1 := st.(cache := Purge(st.cache, now1));
    var o := ResponseForSpec(env1, cfg, s, req, true, now1, st1);
    FreshAnswerSendsItsResponse(env1, cfg, s, req, now1, st);
    var r := o.result.value;
    var key := CacheKey(s, req);
    var entry := Expiring(ResponseObject(r, cfg.b64, cfg.versions), ExpiresAt(now1, cfg.tolerance));
    assert h1.state.cache[key] == entry;
    assert IsLive(entry, now2);
    ResponseWithoutPgpKeyFailsToDecode(r, cfg.b64, cfg.versions);
    CacheHitOnlyResends(env2, cfg, s, req, now2, h1.state);
  }

  /** The first handle of a request was routed to the user for approval. */
  predicate RoutedToApproval(env: Env, cfg: Config, s: Session, req: Request, now: int, st: SiloState) {
    && s.id in st.sessions && req.unpair.None? && Abs(now - req.unixSeconds) <= cfg.tolerance
    && CacheKey(s, req) !in Purge(st.cache, now)
    && NeedsApproval(env, req)
    && HandleSpec(env, cfg, s, req, now, st).error.None?
  }

  /**
   * A request routed to approval sets a marker for twice the tolerance, asks
   * the user, and sends an ack only when the request wants one. The ack is
   * not cached.
   */
  lemma ApprovalSetsMarker(env: Env, cfg: Config, s: Session, req: Request, now: int, st: SiloState)
    requires RoutedToApproval(env, cfg, s, req, now, st)
    ensures var h := HandleSpec(env, cfg, s, req, now, st);
      && h.state.pending == Purge(st.pending, now)[CacheKey(s, req) := Expiring("", ExpiresAt(now, cfg.tolerance))]
      && h.state.cache == Purge(st.cache, now)
      && h.state.events == st.events + [ApprovalRequested(s.id, req.id)]
                           + (if req.sendACK then [Sent(s.id, AckFor(env, cfg, req))] else [])
  {
  }

  /**
   * Pending dedup: a duplicate of a request waiting for approval that passes
   * the time check always finds the marker still live, and fails with
   * RequestPending after only purging expired markers.
   */
  lemma DuplicateWhilePendingIsRefused(env1: Env, env2: Env, cfg: Config, s: Session, req: Request,
                                       now1: int, now2: int, st: SiloState)
    requires RoutedToApproval(env1, cfg, s, req, now1, st)
    requires Abs(now2 - req.unixSeconds) <= cfg.tolerance
    requires NeedsApproval(env2, req)
    ensures var h1 := HandleSpec(env1, cfg, s, req, now1, st);
      var h2 := HandleSpec(env2, cfg, s, req, now2, h1.state);
      && h2.error == Some(RequestPending)
      && h2.state.events == h1.state.events
      && h2.state.pending == Purge(h1.state.pending, now2)
  {
    var h1 := HandleSpec(env1, cfg, s, req, now1, st);
    ApprovalSetsMarker(env1, cfg, s, req, now1, st);
    var key := CacheKey(s, req);
    assert h1.state.pending[key] == Expiring("", ExpiresAt(now1, cfg.tolerance));
    assert key in Purge(h1.state.pending, now2);
    assert key !in Purge(h1.state.cache, now2);
  }

  /** After its marker expired, the same request is treated as new on the approval path. */
  lemma ExpiredMarkerIsNew(env: Env, cfg: Config, s: Session, req: Request, now: int, st: SiloState)
    requires CacheKey(s, req) in st.pending && st.pending[CacheKey(s, req)].expires < now
    ensures var h := ApprovalSpec(env, cfg, s, req, now, st);
      h.error.None? && h.state.pending[CacheKey(s, req)] == Expiring("", ExpiresAt(now, cfg.tolerance))
  {
  }

  /** Handling a request whose key already has a live marker, and that again needs approval, changes only the purge. */
  lemma LiveMarkerRefuses(env: Env, cfg: Config, s: Session, req: Request, now: int, st: SiloState)
    requires CacheKey(s, req) in Purge(st.pending, now)
    ensures ApprovalSpec(env, cfg, s, req, now, st) == Handled(st.(pending := Purge(st.pending, now)), Some(RequestPending))
  {
  }

  /**
   * A refused request gets "rejected" as the error of its sign and git-sign
   * parts, carries no signature, and the key is never used.
   */
  lemma RefusalSignsNothing(env: Env, cfg: Config, s: Session, req: Request, now: int, st: SiloState)
    requires ResponseForSpec(env, cfg, s, req, false, now, st).result.Success?
    ensures var o := ResponseForSpec(env, cfg, s, req, false, now, st);
      && (req.sign.Some? ==> o.result.value.sign == Some(SignResponse(None, Some(RejectedConstant))))
      && (req.gitSign.Some? ==> o.result.value.gitSign == Some(GitSignResponse(None, Some(RejectedConstant))))
      && Unsigned(o.state.events[|st.events|..])
  {
  }

  /** A sign request naming another key aborts `responseFor` with nothing changed: no signature, no log, no cache entry. */
  lemma FingerprintMismatchChangesNothing(env: Env, cfg: Config, s: Session, req: Request, allowed: bool, now: int, st: SiloState)
    requires req.sign.Some?
    requires env.localFingerprint.Success?
    requires cfg.b64.decode(req.sign.value.fingerprint).Some?
    requires cfg.b64.decode(req.sign.value.fingerprint).value != env.localFingerprint.value
    ensures ResponseForSpec(env, cfg, s, req, allowed, now, st) == Outcome(Failure(KeyDoesNotExist), st)
  {
  }

  /** A sign request when the key manager or the key's fingerprint fails aborts `responseFor` with nothing changed. */
  lemma KeyManagerFailureAbortsSign(env: Env, cfg: Config, s: Session, req: Request, allowed: bool, now: int, st: SiloState)
    requires req.sign.Some?
    requires env.localFingerprint.Failure?
    ensures ResponseForSpec(env, cfg, s, req, allowed, now, st)
      == Outcome(Failure(KeyManagerFailure(env.localFingerprint.error)), st)
  {
  }

  /**
   * After `responseFor` succeeds, `cachedResponse` returns the same response
   * until twice the tolerance has passed (when the me part has a PGP key).
   */
  lemma CachedAfterResponse(env: Env, cfg: Config, s: Session, req: Request, allowed: bool, now: int, later: int, st: SiloState)
    requires RoundTrips(cfg.b64) && RoundTrips(cfg.versions)
    requires req.me.Some? ==> req.me.value.pgpUserId.Some?
    requires ResponseForSpec(env, cfg, s, req, allowed, now, st).result.Success?
    requires later <= ExpiresAt(now, cfg.tolerance)
    ensures var o := ResponseForSpec(env, cfg, s, req, allowed, now, st);
      CachedResponseSpec(cfg, s, req, later, o.state) == Some(o.result.value)
  {
    FreshResponseDecodes(env, cfg, s, req, allowed, now, st);
  }

  /** After twice the tolerance the cached response is gone. */
  lemma CachedResponseExpires(env: Env, cfg: Config, s: Session, req: Request, allowed: bool, now: int, later: int, st: SiloState)
    requires ResponseForSpec(env, cfg, s, req, allowed, now, st).result.Success?
    requires later > ExpiresAt(now, cfg.tolerance)
    ensures CachedResponseSpec(cfg, s, req, later, ResponseForSpec(env, cfg, s, req, allowed, now, st).state).None?
  {
  }
}
