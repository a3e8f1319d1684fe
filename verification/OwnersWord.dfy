/** The Owner's invitations, withdrawals and changes, read back from the requests themselves:
    in any run since the empty registry, who may enrol, what policy and status a device is
    under, and so what may be accepted from it, is what the Owner last said. */
module OwnersWord {
  import opened Readers
  import opened Protocol
  import opened Registry
  import opened RegistryRuns
  import opened Delivery
  import opened Scopes

  /* ---------------------------------------------------------------- the history */

  /** The registry before request `n`. */
  ghost function Before(events: seq<Event>, n: nat): State
    requires n <= |events|
  {
    Run(EMPTY, events[..n])
  }

  lemma BeforeNext(events: seq<Event>, n: nat)
    requires n < |events|
    ensures Before(events, n + 1) == Next(Before(events, n), events[n]).0
  {
    assert events[..n + 1][..n] == events[..n];
  }

  lemma {:induction false} SoundBefore(events: seq<Event>, n: nat)
    requires n <= |events|
    ensures Sound(Before(events, n))
  {
    EmptySound();
    RunKeeps(EMPTY, events[..n]);
  }

  lemma EmptySound()
    ensures Sound(EMPTY)
  {
  }

  /** An invitation is issued under this token. */
  ghost predicate Issues(s: State, e: Event, token: nat) {
    e.Inviting? && e.token == token && Next(s, e).1 == Some(Fine)
  }

  /** The claimant is told that it is enrolled. */
  ghost predicate Admits(s: State, e: Event) {
    e.Enrolling? && Next(s, e).1.Some? && Next(s, e).1.value.Enrolled?
  }

  ghost predicate Invites(events: seq<Event>, n: nat, token: nat)
    requires n < |events|
  {
    Issues(Before(events, n), events[n], token)
  }

  ghost predicate Enrols(events: seq<Event>, n: nat)
    requires n < |events|
  {
    Admits(Before(events, n), events[n])
  }

  /** Some request before `m` issued an invitation under this token. */
  ghost predicate TokenIssued(events: seq<Event>, m: nat, token: nat)
    requires m <= |events|
  {
    exists n :: 0 <= n < m && Invites(events, n, token)
  }

  /** Some request before `m` was told that it is enrolled with this token, as this device, or
      with this secret. */
  ghost predicate TokenUsed(events: seq<Event>, m: nat, token: nat)
    requires m <= |events|
  {
    exists c :: 0 <= c < m && events[c].Enrolling? && Enrols(events, c) && events[c].token == token
  }

  ghost predicate DeviceUsed(events: seq<Event>, m: nat, device: nat)
    requires m <= |events|
  {
    exists c :: 0 <= c < m && events[c].Enrolling? && Enrols(events, c) && events[c].id == device
  }

  ghost predicate SecretUsed(events: seq<Event>, m: nat, secret: nat)
    requires m <= |events|
  {
    exists c :: 0 <= c < m && events[c].Enrolling? && Enrols(events, c) && events[c].secret == secret
  }

  lemma IssuedNext(events: seq<Event>, m: nat, token: nat)
    requires m < |events|
    ensures TokenIssued(events, m + 1, token) <==> TokenIssued(events, m, token) || Invites(events, m, token)
  {
    hide Invites;
  }

  lemma UsedNext(events: seq<Event>, m: nat, token: nat, device: nat, secret: nat)
    requires m < |events|
    ensures TokenUsed(events, m + 1, token)
            <==> TokenUsed(events, m, token) || (events[m].Enrolling? && Enrols(events, m) && events[m].token == token)
    ensures DeviceUsed(events, m + 1, device)
            <==> DeviceUsed(events, m, device) || (events[m].Enrolling? && Enrols(events, m) && events[m].id == device)
    ensures SecretUsed(events, m + 1, secret)
            <==> || SecretUsed(events, m, secret)
                 || (events[m].Enrolling? && Enrols(events, m) && events[m].secret == secret)
  {
    hide Enrols;
  }

  /** The invitation request `n` issued was withdrawn before request `m`. */
  ghost predicate Withdrawn(events: seq<Event>, n: nat, m: nat)
    requires n < |events| && m <= |events| && events[n].Inviting?
  {
    exists w :: n < w < m && events[w] == Withdrawing(events[n].library, events[n].id)
  }

  lemma WithdrawnNext(events: seq<Event>, n: nat, m: nat)
    requires n < m < |events| && events[n].Inviting?
    ensures Withdrawn(events, n, m + 1)
            <==> Withdrawn(events, n, m) || events[m] == Withdrawing(events[n].library, events[n].id)
    ensures !Withdrawn(events, n, n + 1)
  {
  }

  /* ---------------------------------------------------------------- one request */

  lemma Elsewhere(s: State, e: Event)
    ensures !e.Inviting? && !e.Withdrawing? && !e.Enrolling? ==> Next(s, e).0.invitations == s.invitations
    ensures !e.Enrolling? && !e.Updating? ==> Next(s, e).0.devices == s.devices && Next(s, e).0.secrets == s.secrets
    ensures e.Updating? ==> Next(s, e).0.secrets == s.secrets
  {
    hide Known, Takes, Transact, OutOfScope, Effect, Committed;
  }

  ghost predicate Holder(s: State, token: nat, device: nat, secret: nat) {
    && token in s.invitations && s.invitations[token].device == Some(device)
    && device in s.devices && s.devices[device].secret == secret
  }

  /** An open invitation met by a device and a secret nobody has. */
  ghost predicate Newcomer(s: State, e: Event)
    requires e.Enrolling?
  {
    && e.token in s.invitations && !s.invitations[e.token].revoked && s.invitations[e.token].device.None?
    && e.now < s.invitations[e.token].expires && e.id !in s.devices && e.secret !in s.secrets
  }

  lemma EnrollCases(s: State, e: Event)
    requires e.Enrolling?
    ensures Next(s, e).0 == if !Newcomer(s, e) then s else
              var v := s.invitations[e.token];
              s.(devices := s.devices[e.id := Device(e.secret, v.library, v.policy, Active)],
                 secrets := s.secrets[e.secret := e.id],
                 invitations := s.invitations[e.token := v.(device := Some(e.id))])
    ensures Admits(s, e)
            <==> Newcomer(s, e)
                 || (Holder(s, e.token, e.id, e.secret) && !s.invitations[e.token].revoked
                     && s.devices[e.id].standing != Revoked)
  {
  }

  lemma TokenNext(s: State, e: Event, token: nat)
    ensures token in Next(s, e).0.invitations <==> token in s.invitations || Issues(s, e, token)
    ensures Issues(s, e, token) ==> e.Inviting? && e.token == token && token !in s.invitations
    ensures Admits(s, e) ==> e.Enrolling? && e.token in s.invitations
  {
    hide Known, Admit, Arrive, Resume, Break, Enroll, UpdateDevice;
    Elsewhere(s, e);
    if e.Enrolling? {
      EnrollCases(s, e);
      hide Next, Admits;
    }
  }

  /** A new invitation is unclaimed and lasts ten minutes; an old one changes by being withdrawn
      or claimed. */
  lemma InvitationNext(s: State, e: Event, token: nat)
    requires token in Next(s, e).0.invitations
    ensures var v := Next(s, e).0.invitations[token];
            if token !in s.invitations then
              && e.Inviting? && e.token == token
              && v == Invitation(e.id, e.library, e.policy, e.now + 600000, false, None)
            else
              && v.(revoked := s.invitations[token].revoked, device := s.invitations[token].device)
                 == s.invitations[token]
              && (v.revoked <==> s.invitations[token].revoked || e == Withdrawing(v.library, v.id))
              && (v.device.Some?
                  <==> s.invitations[token].device.Some? || (e.Enrolling? && Admits(s, e) && e.token == token))
  {
    hide Next, Admits;
    Elsewhere(s, e);
    if e.Enrolling? {
      EnrollInvitation(s, e, token);
    } else if e.Inviting? {
      InviteInvitation(s, e, token);
    } else if e.Withdrawing? {
      WithdrawInvitation(s, e, token);
    }
  }

  lemma InviteInvitation(s: State, e: Event, token: nat)
    requires e.Inviting? && token in Next(s, e).0.invitations
    ensures var v := Next(s, e).0.invitations[token];
            if token in s.invitations then v == s.invitations[token]
            else e.token == token && v == Invitation(e.id, e.library, e.policy, e.now + 600000, false, None)
  {
  }

  lemma WithdrawInvitation(s: State, e: Event, token: nat)
    requires e.Withdrawing? && token in Next(s, e).0.invitations
    ensures token in s.invitations
    ensures var v, w := Next(s, e).0.invitations[token], s.invitations[token];
            v == if w.library == e.library && w.id == e.id then w.(revoked := true) else w
  {
  }

  lemma EnrollInvitation(s: State, e: Event, token: nat)
    requires e.Enrolling? && token in Next(s, e).0.invitations
    ensures token in s.invitations
    ensures var v, w := Next(s, e).0.invitations[token], s.invitations[token];
            v.(device := w.device) == w && (v.device.Some? <==> w.device.Some? || (Admits(s, e) && e.token == token))
  {
    EnrollCases(s, e);
    hide Next, Admits;
  }

  lemma EnrollPeople(s: State, e: Event, device: nat, secret: nat)
    requires Indexed(s.devices, s.secrets) && e.Enrolling?
    ensures device in Next(s, e).0.devices <==> device in s.devices || (Admits(s, e) && e.id == device)
    ensures secret in Next(s, e).0.secrets <==> secret in s.secrets || (Admits(s, e) && e.secret == secret)
  {
    EnrollCases(s, e);
    hide Next, Admits;
  }

  lemma UsedSecretNext(s: State, e: Event, device: nat, secret: nat)
    requires Sound(s)
    ensures device in Next(s, e).0.devices <==> device in s.devices || (e.Enrolling? && Admits(s, e) && e.id == device)
    ensures secret in Next(s, e).0.secrets
            <==> secret in s.secrets || (e.Enrolling? && Admits(s, e) && e.secret == secret)
  {
    hide Known, Admit, Arrive, Resume, Break, Invite, Withdraw, Enroll, Filed, Matching, Backed, Ordered, Counted;
    Elsewhere(s, e);
    if e.Enrolling? { EnrollPeople(s, e, device, secret); }
  }

  /* ---------------------------------------------------------------- invitations */

  lemma {:induction false} TokenKnown(events: seq<Event>, m: nat, token: nat)
    requires m <= |events|
    ensures token in Before(events, m).invitations <==> TokenIssued(events, m, token)
    ensures TokenUsed(events, m, token) ==> token in Before(events, m).invitations
  {
    hide Next, Issues, Admits;
    if m > 0 {
      hide TokenIssued, TokenUsed, Before;
      TokenKnown(events, m - 1, token);
      BeforeNext(events, m - 1);
      IssuedNext(events, m - 1, token);
      UsedNext(events, m - 1, token, 0, 0);
      TokenNext(Before(events, m - 1), events[m - 1], token);
    }
  }

  lemma {:induction false} WhoIsKnown(events: seq<Event>, m: nat, device: nat, secret: nat)
    requires m <= |events|
    ensures device in Before(events, m).devices <==> DeviceUsed(events, m, device)
    ensures secret in Before(events, m).secrets <==> SecretUsed(events, m, secret)
  {
    hide Next, Admits, Sound;
    if m > 0 {
      hide DeviceUsed, SecretUsed, Before;
      WhoIsKnown(events, m - 1, device, secret);
      BeforeNext(events, m - 1);
      UsedNext(events, m - 1, 0, device, secret);
      SoundBefore(events, m - 1);
      UsedSecretNext(Before(events, m - 1), events[m - 1], device, secret);
    }
  }

  /** What the invitation request `n` issued has become before request `m`. */
  ghost predicate AsIssued(events: seq<Event>, n: nat, m: nat)
    requires n < |events| && m <= |events| && events[n].Inviting?
  {
    && events[n].token in Before(events, m).invitations
    && (var v, e := Before(events, m).invitations[events[n].token], events[n];
        && v.id == e.id && v.library == e.library && v.policy == e.policy && v.expires == e.now + 600000
        && (v.revoked <==> Withdrawn(events, n, m)) && (v.device.Some? <==> TokenUsed(events, m, e.token)))
  }

  lemma {:induction false} IssuedStays(events: seq<Event>, n: nat, m: nat)
    requires n < m <= |events| && events[n].Inviting? && Invites(events, n, events[n].token)
    ensures AsIssued(events, n, m)
  {
    hide Next, Issues, Admits, Withdrawn, TokenUsed, TokenIssued, Before;
    var e, s, token := events[m - 1], Before(events, m - 1), events[n].token;
    BeforeNext(events, m - 1);
    UsedNext(events, m - 1, token, 0, 0);
    TokenNext(s, e, token);
    TokenKnown(events, n, token);
    if m == n + 1 {
      InvitationNext(s, e, token);
      if n + 1 < |events| { WithdrawnNext(events, n, n + 1); } else { NotYetWithdrawn(events, n); }
    } else {
      IssuedStays(events, n, m - 1);
      InvitationNext(s, e, token);
      WithdrawnNext(events, n, m - 1);
    }
  }

  lemma NotYetWithdrawn(events: seq<Event>, n: nat)
    requires n < |events| && events[n].Inviting?
    ensures !Withdrawn(events, n, n + 1)
  {
  }

  /* ---------------------------------------------------------------- who may enrol */

  /** The same claim was answered before. */
  ghost predicate Repeated(events: seq<Event>, m: nat, token: nat, device: nat, secret: nat)
    requires m <= |events|
  {
    exists c :: 0 <= c < m && events[c].Enrolling? && Enrols(events, c)
                && events[c].token == token && events[c].id == device && events[c].secret == secret
  }

  lemma RepeatedNext(events: seq<Event>, m: nat, token: nat, device: nat, secret: nat)
    requires m < |events|
    ensures Repeated(events, m + 1, token, device, secret)
            <==> || Repeated(events, m, token, device, secret)
                 || (events[m].Enrolling? && Enrols(events, m)
                     && events[m].token == token && events[m].id == device && events[m].secret == secret)
  {
    hide Enrols;
  }

  lemma EnrollHolder(s: State, e: Event, token: nat, device: nat, secret: nat)
    requires Claims(s.invitations, s.devices) && e.Enrolling?
    ensures Holder(Next(s, e).0, token, device, secret)
            <==> || Holder(s, token, device, secret)
                 || (Admits(s, e) && e.token == token && e.id == device && e.secret == secret)
  {
    EnrollCases(s, e);
    hide Next, Admits;
  }

  lemma SoundClaims(s: State)
    requires Sound(s)
    ensures Claims(s.invitations, s.devices)
  {
  }

  /** Nothing but a claim makes or unmakes a holder. */
  lemma OthersHold(s: State, e: Event, token: nat, device: nat, secret: nat)
    requires !e.Enrolling?
    ensures Holder(Next(s, e).0, token, device, secret) <==> Holder(s, token, device, secret)
  {
    hide Known, Admit, Arrive, Resume, Break, Enroll;
    Elsewhere(s, e);
    if !e.Inviting? && !e.Withdrawing? && !e.Updating? { hide Next; }
  }

  lemma HolderNext(s: State, e: Event, token: nat, device: nat, secret: nat)
    requires Sound(s)
    ensures Holder(Next(s, e).0, token, device, secret)
            <==> || Holder(s, token, device, secret)
                 || (e.Enrolling? && Admits(s, e) && e.token == token && e.id == device && e.secret == secret)
  {
    hide Known, Admit, Arrive, Resume, Break, Invite, Withdraw, Enroll, UpdateDevice, Sound;
    Elsewhere(s, e);
    if e.Enrolling? {
      hide Next, Holder, Admits;
      assert Claims(s.invitations, s.devices) by { SoundClaims(s); }
      EnrollHolder(s, e, token, device, secret);
    } else {
      hide Admits;
      OthersHold(s, e, token, device, secret);
    }
  }

  lemma {:induction false} HolderIs(events: seq<Event>, m: nat, token: nat, device: nat, secret: nat)
    requires m <= |events|
    ensures Holder(Before(events, m), token, device, secret) <==> Repeated(events, m, token, device, secret)
  {
    hide Next, Admits, Sound;
    if m > 0 {
      hide Repeated, Before, Holder;
      HolderIs(events, m - 1, token, device, secret);
      BeforeNext(events, m - 1);
      RepeatedNext(events, m - 1, token, device, secret);
      SoundBefore(events, m - 1);
      HolderNext(Before(events, m - 1), events[m - 1], token, device, secret);
    }
  }

  /** Still good for request `m`: issued by `n`, and not withdrawn since. */
  ghost predicate Offered(events: seq<Event>, n: nat, m: nat, token: nat)
    requires n < |events| && m <= |events|
  {
    events[n].Inviting? && Invites(events, n, token) && !Withdrawn(events, n, m)
  }

  lemma AdmitsIs(s: State, e: Event)
    requires Sound(s) && e.Enrolling?
    ensures Admits(s, e)
            <==> && e.token in s.invitations && !s.invitations[e.token].revoked
                 && if s.invitations[e.token].device.None?
                    then e.now < s.invitations[e.token].expires && e.id !in s.devices && e.secret !in s.secrets
                    else Holder(s, e.token, e.id, e.secret) && s.devices[e.id].standing != Revoked
  {
    EnrollCases(s, e);
    hide Next, Admits, Indexed, Filed, Matching, Backed, Ordered, Counted;
  }

  /* ---------------------------------------------------------------- changes */

  ghost predicate Sets(s: State, e: Event) {
    e.Updating? && Next(s, e).1 == Some(Fine)
  }

  /** Request `n` changes the device. */
  ghost predicate Changes(events: seq<Event>, n: nat, device: nat)
    requires n < |events|
  {
    events[n].Updating? && Sets(Before(events, n), events[n]) && events[n].id == device
  }

  ghost predicate Barred(events: seq<Event>, m: nat, device: nat)
    requires m <= |events|
  {
    exists n :: 0 <= n < m && events[n].Updating? && Changes(events, n, device) && events[n].standing == Revoked
  }

  lemma BarredNext(events: seq<Event>, m: nat, device: nat)
    requires m < |events|
    ensures Barred(events, m + 1, device)
            <==> || Barred(events, m, device)
                 || (events[m].Updating? && Changes(events, m, device) && events[m].standing == Revoked)
  {
    hide Changes;
  }

  /** A new device is the invitation's, under the invitation's policy; an old one changes only by
      the Owner's word, and then to what was said. */
  lemma DeviceNext(s: State, e: Event, d: nat)
    requires d in Next(s, e).0.devices
    ensures var device := Next(s, e).0.devices[d];
            if d !in s.devices then
              && e.Enrolling? && Admits(s, e) && e.id == d && e.token in s.invitations
              && device == Device(e.secret, s.invitations[e.token].library, s.invitations[e.token].policy, Active)
            else if e.Updating? && Sets(s, e) && e.id == d then
              && device.secret == s.devices[d].secret && device.library == s.devices[d].library
              && device.standing == e.standing
              && device.policy == if e.change.Some? then e.change.value else s.devices[d].policy
            else device == s.devices[d]
  {
    hide Known, Admit, Arrive, Resume, Break, Invite, Withdraw, Enroll;
    Elsewhere(s, e);
    if e.Enrolling? {
      EnrollCases(s, e);
      hide Next, Admits;
    }
  }

  /** The Owner changes a device of the library named, except to bring a revoked one back. */
  lemma SetsIff(s: State, e: Event)
    requires e.Updating?
    ensures Sets(s, e) <==> && e.id in s.devices && s.devices[e.id].library == e.library
                            && (s.devices[e.id].standing == Revoked ==> e.standing == Revoked)
  {
  }

  lemma {:induction false} BarredIs(events: seq<Event>, m: nat, device: nat)
    requires m <= |events|
    ensures Barred(events, m, device) ==> device in Before(events, m).devices
    ensures device in Before(events, m).devices ==>
              (Before(events, m).devices[device].standing == Revoked <==> Barred(events, m, device))
  {
    hide Next, Admits, Sets, Sound;
    if m > 0 {
      hide Barred, Before;
      var e, s := events[m - 1], Before(events, m - 1);
      BarredIs(events, m - 1, device);
      BeforeNext(events, m - 1);
      BarredNext(events, m - 1, device);
      SoundBefore(events, m - 1);
      UsedSecretNext(s, e, device, 0);
      if e.Updating? { SetsIff(s, e); }
      if device in Next(s, e).0.devices { DeviceNext(s, e, device); }
    }
  }

  /** Nobody used the token, the claim is less than ten minutes after the invitation, and neither
      the device nor the secret is enrolled; or the very claim was answered before and the device
      was not revoked since. */
  ghost predicate Claimable(events: seq<Event>, n: nat, m: nat)
    requires n < |events| && m < |events| && events[n].Inviting? && events[m].Enrolling?
  {
    var e := events[m];
    if TokenUsed(events, m, e.token)
    then Repeated(events, m, e.token, e.id, e.secret) && !Barred(events, m, e.id)
    else e.now < events[n].now + 600000 && !DeviceUsed(events, m, e.id) && !SecretUsed(events, m, e.secret)
  }

  lemma EnrolsUnder(events: seq<Event>, n: nat, m: nat)
    requires n < m < |events| && events[m].Enrolling? && Invites(events, n, events[m].token)
    ensures events[n].Inviting?
    ensures Enrols(events, m) <==> Offered(events, n, m, events[m].token) && Claimable(events, n, m)
  {
    hide Next, Issues, Admits, Sound, TokenUsed, DeviceUsed, SecretUsed, Repeated, Barred, Withdrawn, Before;
    var e, s := events[m], Before(events, m);
    TokenNext(Before(events, n), events[n], e.token);
    IssuedStays(events, n, m);
    SoundBefore(events, m);
    AdmitsIs(s, e);
    WhoIsKnown(events, m, e.id, e.secret);
    HolderIs(events, m, e.token, e.id, e.secret);
    BarredIs(events, m, e.id);
  }

  /** A claim is answered with a device exactly when its token was issued, not withdrawn since,
      and can still be claimed. */
  lemma EnrolsIff(events: seq<Event>, m: nat)
    requires m < |events| && events[m].Enrolling?
    ensures Enrols(events, m)
            <==> exists n :: 0 <= n < m && Offered(events, n, m, events[m].token) && Claimable(events, n, m)
  {
    hide Next, Issues, Admits, Sound, Claimable, Withdrawn, Before;
    var token := events[m].token;
    TokenNext(Before(events, m), events[m], token);
    TokenKnown(events, m, token);
    forall n: nat | n < m && Invites(events, n, token)
      ensures events[n].Inviting?
      ensures Enrols(events, m) <==> Offered(events, n, m, token) && Claimable(events, n, m)
    {
      EnrolsUnder(events, n, m);
    }
  }

  /** A withdrawal is answered exactly if the library has the invitation. */
  lemma WithdrawnIff(s: State, library: nat, id: nat)
    ensures Withdraw(s, library, id).1 == Some(Fine)
            <==> exists t :: t in s.invitations && s.invitations[t].library == library && s.invitations[t].id == id
    ensures Withdraw(s, library, id).1 != Some(Fine)
            ==> Withdraw(s, library, id) == (s, Some(Denied(InvitationNotFound)))
  {
    assert forall t :: t in s.invitations ==>
      (Names(s.invitations[t], library, id) <==> s.invitations[t].library == library && s.invitations[t].id == id);
  }

  /* ---------------------------------------------------------------- the last word */

  /** Request `n` enrols the device, as nobody did before. */
  ghost predicate FirstEnrols(events: seq<Event>, n: nat, device: nat)
    requires n < |events|
  {
    events[n].Enrolling? && Enrols(events, n) && events[n].id == device && !DeviceUsed(events, n, device)
  }

  /** Request `n` says what the device's status is. */
  ghost predicate GivesStatus(events: seq<Event>, n: nat, device: nat, status: Standing)
    requires n < |events|
  {
    || (events[n].Updating? && Changes(events, n, device) && events[n].standing == status)
    || (FirstEnrols(events, n, device) && status == Active)
  }

  ghost predicate GivesPolicy(events: seq<Event>, n: nat, device: nat, policy: Policy)
    requires n < |events|
  {
    || (events[n].Updating? && Changes(events, n, device) && events[n].change == Some(policy))
    || (FirstEnrols(events, n, device)
        && exists k :: 0 <= k < n && Offered(events, k, n, events[n].token) && events[k].policy == policy)
  }

  ghost predicate NoChange(events: seq<Event>, n: nat, m: nat, device: nat)
    requires m <= |events|
  {
    forall j :: n < j < m ==> !Changes(events, j, device)
  }

  ghost predicate NoPolicy(events: seq<Event>, n: nat, m: nat, device: nat)
    requires m <= |events|
  {
    forall j :: n < j < m && events[j].Updating? && Changes(events, j, device) ==> events[j].change.None?
  }

  lemma QuietNext(events: seq<Event>, n: nat, m: nat, device: nat)
    requires n <= m < |events|
    ensures NoChange(events, n, m, device) && (m > n ==> !Changes(events, m, device))
            ==> NoChange(events, n, m + 1, device)
    ensures NoPolicy(events, n, m, device)
            && (m > n && events[m].Updating? && Changes(events, m, device) ==> events[m].change.None?)
            ==> NoPolicy(events, n, m + 1, device)
    ensures NoChange(events, n, n, device) && NoPolicy(events, n, n, device)
  {
    hide Changes;
  }

  /** What request `n` does to a device. */
  lemma Step(events: seq<Event>, n: nat, device: nat)
    requires n < |events| && device in Before(events, n + 1).devices
    ensures var s, after := Before(events, n), Before(events, n + 1).devices[device];
            if device !in s.devices then
              FirstEnrols(events, n, device) && GivesStatus(events, n, device, after.standing)
              && GivesPolicy(events, n, device, after.policy)
            else if Changes(events, n, device) then
              && events[n].Updating? && GivesStatus(events, n, device, after.standing)
              && (if events[n].change.Some? then GivesPolicy(events, n, device, after.policy)
                  else after.policy == s.devices[device].policy)
            else after == s.devices[device]
  {
    hide Next, Admits, Sets, Sound, DeviceUsed, Before;
    WhoIsKnown(events, n, device, 0);
    BeforeNext(events, n);
    DeviceNext(Before(events, n), events[n], device);
    if device !in Before(events, n).devices { var k := InvitedWith(events, n); }
  }

  lemma InvitedWith(events: seq<Event>, m: nat) returns (n: nat)
    requires m < |events| && events[m].Enrolling? && Enrols(events, m)
    ensures events[m].token in Before(events, m).invitations
    ensures n < m && Offered(events, n, m, events[m].token)
    ensures events[n].policy == Before(events, m).invitations[events[m].token].policy
  {
    hide Next, Issues, Admits, Claimable, Withdrawn, Before;
    EnrolsIff(events, m);
    n :| 0 <= n < m && Offered(events, n, m, events[m].token) && Claimable(events, n, m);
    TokenNext(Before(events, n), events[n], events[m].token);
    IssuedStays(events, n, m);
  }

  /** A device's status is what the last change of it said, or active if there was none. */
  lemma {:induction false} LastStatus(events: seq<Event>, m: nat, device: nat) returns (n: nat)
    requires m <= |events| && device in Before(events, m).devices
    ensures n < m && GivesStatus(events, n, device, Before(events, m).devices[device].standing)
    ensures NoChange(events, n, m, device)
    decreases m
  {
    hide Next, GivesStatus, GivesPolicy, FirstEnrols, NoChange, NoPolicy, Changes;
    assert m > 0;
    hide Before;
    Step(events, m - 1, device);
    if device !in Before(events, m - 1).devices || Changes(events, m - 1, device) {
      n := m - 1;
    } else {
      n := LastStatus(events, m - 1, device);
    }
    QuietNext(events, n, m - 1, device);
  }

  /** A device's policy is what the last change that gave one said, or its invitation's. */
  lemma {:induction false} LastPolicy(events: seq<Event>, m: nat, device: nat) returns (n: nat)
    requires m <= |events| && device in Before(events, m).devices
    ensures n < m && GivesPolicy(events, n, device, Before(events, m).devices[device].policy)
    ensures NoPolicy(events, n, m, device)
    decreases m
  {
    hide Next, GivesStatus, GivesPolicy, FirstEnrols, NoChange, NoPolicy, Changes;
    assert m > 0;
    hide Before;
    Step(events, m - 1, device);
    if device !in Before(events, m - 1).devices || (Changes(events, m - 1, device) && events[m - 1].change.Some?) {
      n := m - 1;
    } else {
      n := LastPolicy(events, m - 1, device);
    }
    QuietNext(events, n, m - 1, device);
  }

  /** THE OWNER'S LAST WORD. A row is added only for a device whose status, by the last change of
      it, is active, and only with a body that names no other device and keeps to the policy
      given last, by a change or by the device's invitation. */
  lemma AdmittedByLastWord(events: seq<Event>, m: nat) returns (status: nat, policy: nat, given: Policy)
    requires m < |events| && Before(events, m + 1).rows != Before(events, m).rows
    ensures |Before(events, m + 1).rows| == |Before(events, m).rows| + 1
    ensures status < m && policy < m
    ensures var row := Before(events, m + 1).rows[|Before(events, m).rows|];
            var device := row.key.device;
            && row.upload.body.Material? && OwnIdentity(device, row.upload.body) && Within(given, row.upload.body)
            && GivesStatus(events, status, device, Active) && NoChange(events, status, m, device)
            && GivesPolicy(events, policy, device, given) && NoPolicy(events, policy, m, device)
  {
    hide Next, Sound, Before, Within, OwnIdentity, GivesStatus, GivesPolicy, NoChange, NoPolicy;
    BeforeNext(events, m);
    SoundBefore(events, m);
    CommitTimeAdmission(Before(events, m), events[m]);
    var row := Before(events, m + 1).rows[|Before(events, m).rows|];
    given := Before(events, m).devices[row.key.device].policy;
    ScopeIff(row.key.device, given, row.upload.body);
    status := LastStatus(events, m, row.key.device);
    policy := LastPolicy(events, m, row.key.device);
  }

  /* ---------------------------------------------------------------- one upload */

  /** The secret is this device's, and the device has this status. */
  ghost predicate Opens(s: State, secret: nat, device: nat, status: Standing) {
    secret in s.secrets && s.secrets[secret] == device && device in s.devices && s.devices[device].standing == status
  }

  /** Which secrets are let in: an active device's, and a paused one's where that is allowed. */
  lemma KnownIff(s: State, secret: nat, allowPaused: bool, device: nat)
    ensures Known(s, secret, allowPaused) == Given(device)
            <==> Opens(s, secret, device, Active) || (allowPaused && Opens(s, secret, device, Paused))
    ensures Known(s, secret, allowPaused) == Refused(DevicePaused)
            <==> !allowPaused && exists d :: Opens(s, secret, d, Paused)
    ensures Known(s, secret, allowPaused) == Refused(DeviceRevoked) <==> exists d :: Opens(s, secret, d, Revoked)
    ensures Known(s, secret, allowPaused) == Refused(InvalidCredential)
            <==> forall d, status :: !Opens(s, secret, d, status)
  {
    if secret in s.secrets && s.secrets[secret] in s.devices {
      assert Opens(s, secret, s.secrets[secret], s.devices[s.secrets[secret]].standing);
    }
  }

  /** An upload gets one of the two slots exactly if one is free, its device is active and it states
      a digest; otherwise nothing changes. */
  lemma ArriveIff(s: State, r: nat, secret: nat, claimed: Option<Body>)
    requires r !in s.flights
    ensures var (after, reply) := Arrive(s, r, secret, claimed);
            && (reply == None <==> s.active < 2 && claimed.Some? && exists d :: Opens(s, secret, d, Active))
            && (reply == Some(Denied(UploadBusy)) <==> s.active >= 2)
            && (reply == None ==>
                  after == s.(flights := s.flights[r := Reading(secret, claimed.value)], active := s.active + 1))
            && (reply != None ==> after == s && reply.value.Denied?)
  {
    KnownIff(s, secret, false, if secret in s.secrets then s.secrets[secret] else 0);
  }

  /** What the cloud's parser lets through. */
  ghost predicate Parses(body: Body) {
    && body.Material? && body.size <= 8388608 && |body.turns| <= 100000
    && (exists i :: 0 <= i < |body.session| && !Trimmed(body.session[i]))
    && Units(body.session) <= 1024 && forall i :: 0 <= i < |body.session| ==> body.session[i] > '\U{001F}'
  }

  lemma TransactIs(s: State, r: nat, id: nat, body: Body, now: int)
    requires r in s.flights && id in s.devices && body.Material?
    ensures var key, (after, reply) := Key(s.devices[id].library, id, body.sid), Transact(s, r, id, body, now);
            if key in s.uploads && s.uploads[key].body != body then
              reply.Some? && reply.value.Denied? && after == End(s, r)
            else
              && (reply == None || reply.value.Stored?)
              && after.uploads == s.uploads[key := if key in s.uploads then s.uploads[key]
                                                   else Upload(body.stream, body, now)]
  {
    hide Committed;
  }

  lemma AdmitDenies(s: State, r: nat, body: Body, now: int)
    requires r in s.flights && s.flights[r].Reading? && !Transacts(s, r, body)
    ensures var (after, reply) := Admit(s, r, body, now); reply.Some? && reply.value.Denied? && after == End(s, r)
  {
    hide Text, OutOfScope, Known, Transact;
  }

  lemma TransactsIff(s: State, r: nat, body: Body, device: nat)
    requires r in s.flights && s.flights[r].Reading? && device in s.devices
    requires s.flights[r].secret in s.secrets && s.secrets[s.flights[r].secret] == device
    ensures Transacts(s, r, body)
            <==> && body == s.flights[r].claimed && Parses(body) && s.devices[device].standing == Active
                 && OwnIdentity(device, body) && Within(s.devices[device].policy, body)
    ensures Transacts(s, r, body) ==> Known(s, s.flights[r].secret, false) == Given(device)
  {
    hide Within, OwnIdentity, Units, Trimmed, OutOfScope;
    if body.Material? { ScopeIff(device, s.devices[device].policy, body); }
  }

  /** A body is accepted exactly if it is the one announced, parses, comes from an active device,
      names no other, keeps to the policy in force, and its id was not used for another body. */
  lemma AcceptedIff(s: State, r: nat, body: Body, now: int, device: nat)
    requires Sound(s) && r in s.flights && s.flights[r].Reading?
    requires s.flights[r].secret in s.secrets && s.secrets[s.flights[r].secret] == device
    ensures var (after, reply) := Admit(s, r, body, now);
            && device in s.devices
            && (reply == None || reply.value.Stored?
                <==> && body == s.flights[r].claimed && Parses(body) && s.devices[device].standing == Active
                     && OwnIdentity(device, body) && Within(s.devices[device].policy, body)
                     && forall k :: k in s.uploads && k.device == device && k.sid == body.sid ==>
                                      s.uploads[k].body == body)
            && (reply.Some? && !reply.value.Stored? ==> reply.value.Denied? && after == End(s, r))
            && (reply == None || reply.value.Stored? ==>
                  var key := Key(s.devices[device].library, device, body.sid);
                  && key in after.uploads && after.uploads[key].body == body
                  && (key !in s.uploads ==> after.uploads[key] == Upload(body.stream, body, now))
                  && (forall k :: k in after.uploads && k != key ==> k in s.uploads && after.uploads[k] == s.uploads[k])
                  && (forall k :: k in s.uploads ==> k in after.uploads && after.uploads[k] == s.uploads[k]))
  {
    hide Within, OwnIdentity, Parses, Known, Transact, Admit, Transacts, Sound;
    SoundIndexed(s);
    TransactsIff(s, r, body, device);
    if Transacts(s, r, body) {
      AdmitCases(s, r, body, now);
      TransactIs(s, r, device, body, now);
      var key := Key(s.devices[device].library, device, body.sid);
      forall k | k in s.uploads && k.device == device && k.sid == body.sid ensures k == key { FiledUnder(s, k); }
    } else {
      AdmitDenies(s, r, body, now);
    }
  }
}
