/** Account health: how one runtime snapshot of a credential is classified. */
module Health {

  /** Instants and durations; the zero instant means "not set". */
  type Time = int

  datatype State =
    | NoState | Unknown | Healthy | QuotaLimited | Suspect | CredentialDown | ReauthRequired | Disabled | Removed

  datatype Confirmation = Unconfirmable | Transient | Unauthorized

  datatype MessageCode =
    | MessageUnknown | MessageUnauthorized | MessageInvalidGrant | MessageInvalidToken | MessagePaymentRequired
    | MessageNotFound | MessageQuotaExhausted | MessageCloudflare | MessageTransient | MessageRequestFailed
    | MessageRefreshRevoked | MessageRefreshRejected

  /** The closed set of reason codes; `Persistent` marks a confirmed suspicion, `Legacy` is any text
      outside the set that an older state file may hold. */
  datatype Reason =
    | NoReason | OperatorDisabled | Http429Quota | QuotaExhausted | UnauthorizedRequest | UnauthorizedRefreshFailed
    | InvalidGrant | InvalidToken | RefreshRevoked | RefreshRejected | PaymentRequired | NotFound | Http(code: int)
    | TransientUpstream | CloudflareChallenge | RequestFailed | CooldownActive | CooldownUnconfirmed
    | AvailableResidual | Unclassified | ReasonRemoved | Persistent(reason: Reason) | Legacy(text: string)

  datatype Snapshot = Snapshot(
    key: string, authIndex: string, provider: string, name: string, identity: string,
    disabled: bool, unavailable: bool, status: string, code: MessageCode,
    nextRetryAfter: Time, evidence: int, observedAt: Time)

  datatype Observation = Observation(state: State, reason: Reason, confirmation: Confirmation, confirmAs: State)

  predicate IsFailure(state: State) {
    state == ReauthRequired || state == CredentialDown
  }

  predicate IsCredentialHealthy(state: State) {
    state == Healthy || state == QuotaLimited
  }

  function Plain(state: State, reason: Reason): Observation {
    Observation(state, reason, Unconfirmable, NoState)
  }

  function Promotable(reason: Reason, confirmation: Confirmation, confirmAs: State): Observation {
    Observation(Suspect, reason, confirmation, confirmAs)
  }

  datatype Rule = NoRule | Rule(observation: Observation)

  function FailureStatus(code: int): Rule {
    if code == 429 then Rule(Plain(QuotaLimited, Http429Quota))
    else if code == 401 then Rule(Promotable(UnauthorizedRequest, Unauthorized, ReauthRequired))
    else if code in {403, 408, 500, 502, 503, 504} then Rule(Promotable(Http(code), Transient, CredentialDown))
    else NoRule
  }

  predicate IsClassifiable(code: int) {
    FailureStatus(code).Rule?
  }

  predicate IsActive(s: Snapshot) {
    s.status == "active" && !s.unavailable
  }

  predicate CurrentError(s: Snapshot) {
    s.status == "error" || s.unavailable
  }

  predicate RetryElapsed(s: Snapshot) {
    s.nextRetryAfter == 0 || s.nextRetryAfter <= s.observedAt
  }

  function Classify(s: Snapshot): Observation {
    if s.disabled then Plain(Disabled, OperatorDisabled)
    else if IsActive(s) || !CurrentError(s) then Plain(Healthy, NoReason)
    else if s.code.MessageInvalidGrant? then Plain(ReauthRequired, InvalidGrant)
    else if s.code.MessageInvalidToken? then Plain(ReauthRequired, InvalidToken)
    else if s.code.MessageRefreshRevoked? then Plain(ReauthRequired, RefreshRevoked)
    else if s.code.MessageRefreshRejected? then Plain(ReauthRequired, RefreshRejected)
    else if s.code.MessageUnauthorized? && RetryElapsed(s) then Plain(ReauthRequired, UnauthorizedRefreshFailed)
    else if IsClassifiable(s.evidence) then FailureStatus(s.evidence).observation
    else if s.code.MessageQuotaExhausted? then Plain(QuotaLimited, QuotaExhausted)
    else if !s.unavailable && s.nextRetryAfter == 0 then Plain(Suspect, AvailableResidual)
    else match s.code
      case MessageUnauthorized => Promotable(UnauthorizedRequest, Unauthorized, ReauthRequired)
      case MessagePaymentRequired => Promotable(PaymentRequired, Transient, CredentialDown)
      case MessageNotFound => Promotable(NotFound, Transient, CredentialDown)
      case MessageTransient => Promotable(TransientUpstream, Transient, CredentialDown)
      case MessageCloudflare => Promotable(CloudflareChallenge, Transient, CredentialDown)
      case MessageRequestFailed => Promotable(RequestFailed, Transient, CredentialDown)
      case _ =>
        if s.nextRetryAfter > s.observedAt then Plain(Suspect, CooldownActive)
        else if s.nextRetryAfter != 0 && s.evidence == 0 then Plain(Suspect, CooldownUnconfirmed)
        else Promotable(Unclassified, Transient, CredentialDown)
  }

  /** Credentials were rejected for good, not merely refused once. */
  predicate Rejected(s: Snapshot) {
    || s.code in {MessageInvalidGrant, MessageInvalidToken, MessageRefreshRevoked, MessageRefreshRejected}
    || (s.code.MessageUnauthorized? && RetryElapsed(s))
  }

  /** Nothing in the snapshot speaks against the credential itself. */
  predicate Benign(s: Snapshot) {
    || s.disabled || !CurrentError(s)
    || (!Rejected(s) && (s.evidence == 429 || (s.code.MessageQuotaExhausted? && !IsClassifiable(s.evidence))))
  }

  /** Alarm at once needs a definitive rejection; quota and operator action are never suspicious. */
  lemma ClassifyIsConservative(s: Snapshot)
    ensures IsFailure(Classify(s).state) <==> !s.disabled && CurrentError(s) && Rejected(s)
    ensures Classify(s).state in {Disabled, Healthy, QuotaLimited} <==> Benign(s)
    ensures Classify(s).state in {Disabled, Healthy, QuotaLimited, Suspect, ReauthRequired}
    ensures Classify(s).confirmation != Unconfirmable ==>
      Classify(s).state == Suspect && IsFailure(Classify(s).confirmAs)
  {
  }

  /** An operator's decision comes before everything, and a credential in use is healthy whatever else lingers. */
  lemma DecidedWithoutDoubt(s: Snapshot)
    ensures Classify(s).state == Disabled <==> s.disabled
    ensures Classify(s).state == Healthy <==> !s.disabled && s.status != "error" && !s.unavailable
    ensures Classify(s).state == QuotaLimited <==>
      && !s.disabled && (s.status == "error" || s.unavailable) && !Rejected(s)
      && (s.evidence == 429 || (s.code.MessageQuotaExhausted? && s.evidence !in {401, 403, 408, 500, 502, 503, 504}))
  {
  }

  /** The upstream request itself was refused or failed. */
  predicate Refused(s: Snapshot) {
    s.evidence == 401 || (s.code.MessageUnauthorized? && s.evidence !in {403, 408, 429, 500, 502, 503, 504})
  }

  /** What is left on a credential that remains available, with no request on record and no retry set. */
  predicate Residual(s: Snapshot) {
    !s.unavailable && s.nextRetryAfter == 0 && s.evidence !in {401, 403, 408, 429, 500, 502, 503, 504}
  }

  /** A cooldown whose cause is unknown: it is still running, or over with nothing on record since. */
  predicate UnknownCooldown(s: Snapshot) {
    && s.code in {MessageUnknown, MessageInvalidGrant, MessageInvalidToken, MessageRefreshRevoked,
                  MessageRefreshRejected, MessageQuotaExhausted}
    && (s.nextRetryAfter > s.observedAt || (s.nextRetryAfter != 0 && s.evidence == 0))
    && s.evidence !in {401, 403, 408, 429, 500, 502, 503, 504}
  }

  /** Of the doubtful snapshots, a refusal may be confirmed as a sign-in needed, and every other failure as
      an outage, except what is merely residual and a cooldown of unknown cause: these start no clock. */
  lemma DoubtIsTyped(s: Snapshot)
    requires Classify(s).state == Suspect
    ensures var obs := Classify(s);
      if Residual(s) || UnknownCooldown(s) then obs.confirmation == Unconfirmable
      else if Refused(s) then obs.confirmation == Unauthorized && obs.confirmAs == ReauthRequired
      else obs.confirmation == Transient && obs.confirmAs == CredentialDown
  {
  }

  /** The reason names the cause: the message of a definitive rejection, then the status of the request on
      record, then the message. */
  lemma ReasonNamesTheCause(s: Snapshot)
    requires !s.disabled && (s.status == "error" || s.unavailable)
    ensures var reason := Classify(s).reason;
      match s.code
      case MessageInvalidGrant => reason == InvalidGrant
      case MessageInvalidToken => reason == InvalidToken
      case MessageRefreshRevoked => reason == RefreshRevoked
      case MessageRefreshRejected => reason == RefreshRejected
      case MessageUnauthorized =>
        if RetryElapsed(s) then reason == UnauthorizedRefreshFailed
        else if s.evidence == 429 then reason == Http429Quota
        else if s.evidence in {403, 408, 500, 502, 503, 504} then reason == Http(s.evidence)
        else reason == UnauthorizedRequest
      case _ =>
        if s.evidence == 429 then reason == Http429Quota
        else if s.evidence == 401 then reason == UnauthorizedRequest
        else if s.evidence in {403, 408, 500, 502, 503, 504} then reason == Http(s.evidence)
        else if s.code.MessageQuotaExhausted? then reason == QuotaExhausted
        else if Residual(s) then reason == AvailableResidual
        else if s.code.MessagePaymentRequired? then reason == PaymentRequired
        else if s.code.MessageNotFound? then reason == NotFound
        else if s.code.MessageTransient? then reason == TransientUpstream
        else if s.code.MessageCloudflare? then reason == CloudflareChallenge
        else if s.code.MessageRequestFailed? then reason == RequestFailed
        else if s.nextRetryAfter > s.observedAt then reason == CooldownActive
        else if s.nextRetryAfter != 0 && s.evidence == 0 then reason == CooldownUnconfirmed
        else reason == Unclassified
  {
  }

  /** The reason shown once a suspicion is confirmed. */
  function PersistentReason(reason: Reason): Reason {
    if reason.UnauthorizedRequest? || reason.Http? || reason.TransientUpstream? || reason.CloudflareChallenge?
       || reason.RequestFailed? || reason.PaymentRequired? || reason.NotFound? then Persistent(reason)
    else Persistent(Unclassified)
  }

  /** A confirmed suspicion goes on naming its cause. */
  lemma ConfirmedReasonNamesTheCause(s: Snapshot)
    requires Classify(s).confirmation != Unconfirmable
    ensures PersistentReason(Classify(s).reason) == Persistent(Classify(s).reason)
  {
  }

  function NormalizeReason(reason: Reason): Reason {
    if reason.Legacy? then Unclassified else reason
  }
}
