/** One collector directory and the registry (`_enroll` in collector.py, `#enroll` in index.ts):
    an identity that is saved before it is used, and claims whose answers can be lost. */
module Enrollment {
  import opened Readers
  import opened Protocol
  import opened Registry
  import opened RegistryRuns

  /** device.json; the library is what an answered claim added. */
  datatype Config = Config(id: nat, secret: nat, library: Option<nat>)

  /** `config` is on disk; `working` is what a running `_enroll` holds. `claims` is a history. */
  datatype Claim = Claim(token: nat, id: nat, secret: nat)
  datatype World = World(s: State, config: Option<Config>, working: Option<Config>, claims: seq<Claim>)

  datatype Step =
    | Starts(id: nat, secret: nat)
    | Saves
    | Asks(token: nat, now: int, heard: bool)
    | Crashes
    | Others(e: Event)

  /** A run reads the saved identity, or draws one and saves it; only then does it ask, with what
      it read or saved. It ends with its answer, with an error, or in a crash. */
  function Go(w: World, step: Step): World {
    match step
    case Starts(id, secret) =>
      if w.working.Some? then w
      else w.(working := if w.config.Some? then w.config else Some(Config(id, secret, None)))
    case Saves => if w.working.Some? && w.config.None? then w.(config := w.working) else w
    case Asks(token, now, heard) =>
      if w.working.None? || w.config.None? then w
      else
        var c := w.working.value;
        var (s, reply) := Enroll(w.s, token, c.id, c.secret, now);
        var answered := heard && reply.Some? && reply.value.Enrolled? && reply.value.device == c.id;
        World(s, if answered then Some(c.(library := Some(reply.value.library))) else w.config, None,
              w.claims + [Claim(token, c.id, c.secret)])
    case Crashes => w.(working := None)
    case Others(e) => w.(s := Next(w.s, e).0)
  }

  function Drawn(w: World): Option<Config> {
    if w.config.Some? then w.config else w.working
  }

  /** Ids and secrets are random: a fresh one is nobody's, and nobody else ever draws it. */
  predicate Random(w: World, step: Step) {
    match step
    case Starts(id, secret) => w.config.None? && w.working.None? ==> id !in w.s.devices && secret !in w.s.secrets
    case Others(e) =>
      e.Enrolling? && Drawn(w).Some? ==> e.id != Drawn(w).value.id && e.secret != Drawn(w).value.secret
    case _ => true
  }

  function Journey(w: World, steps: seq<Step>): World {
    if steps == [] then w else Go(Journey(w, steps[..|steps| - 1]), steps[|steps| - 1])
  }

  predicate RandomRun(w: World, steps: seq<Step>) {
    steps != [] ==>
      var front := steps[..|steps| - 1];
      RandomRun(w, front) && Random(Journey(w, front), steps[|steps| - 1])
  }

  /* ---------------------------------------------------------------- the directory itself */

  /** Where one run of `_enroll` stops. */
  datatype Stop = BeforeSaving | BeforeAsking | AnswerLost | Answered

  function Attempt(config: Option<Config>, s: State, token: nat, id: nat, secret: nat, now: int, stop: Stop)
    : (Option<Config>, State, Option<Reply>)
  {
    var c := if config.Some? then config.value else Config(id, secret, None);
    if stop == BeforeSaving then (config, s, None)
    else if stop == BeforeAsking then (Some(c), s, None)
    else
      var (after, reply) := Enroll(s, token, c.id, c.secret, now);
      if stop == AnswerLost || !(reply.Some? && reply.value.Enrolled? && reply.value.device == c.id) then
        (Some(c), after, if stop == Answered then reply else None)
      else (Some(c.(library := Some(reply.value.library))), after, reply)
  }

  class Directory {
    var config: Option<Config>

    constructor ()
      ensures config == None
    {
      config := None;
    }

    method ClaimInvitation(registry: CollectorRegistry, token: nat, id: nat, secret: nat, now: int, stop: Stop)
      returns (answer: Option<Reply>)
      modifies this, registry
      ensures (config, registry.Tables(), answer) ==
                 Attempt(old(config), old(registry.Tables()), token, id, secret, now, stop)
    {
      if stop == BeforeSaving { return None; }
      var c := Config(id, secret, None);
      if config.Some? { c := config.value; } else { config := Some(c); }
      if stop == BeforeAsking { return None; }
      var reply := registry.Claim(token, c.id, c.secret, now);
      if stop == AnswerLost { return None; }
      if reply.Enrolled? && reply.device == c.id {
        c := c.(library := Some(reply.library));
        config := Some(c);
      }
      answer := Some(reply);
    }
  }

  /** A run is its steps. */
  lemma AttemptIsSteps(w: World, token: nat, id: nat, secret: nat, now: int, stop: Stop)
    requires w.working.None?
    ensures var (config, s, _) := Attempt(w.config, w.s, token, id, secret, now, stop);
            var started := Go(w, Starts(id, secret));
            var after := match stop
                         case BeforeSaving => Go(started, Crashes)
                         case BeforeAsking => Go(Go(started, Saves), Crashes)
                         case AnswerLost => Go(Go(started, Saves), Asks(token, now, false))
                         case Answered => Go(Go(started, Saves), Asks(token, now, true));
            after.config == config && after.s == s && after.working.None?
  {
  }

  /* ---------------------------------------------------------------- the invariant */

  /** The registry knows this id and this secret only together, from a claim that took them. */
  predicate Mine(s: State, id: nat, secret: nat) {
    && (id in s.devices <==> secret in s.secrets)
    && (id in s.devices ==> s.devices[id].secret == secret && s.secrets[secret] == id)
    && (id in s.devices <==> exists t :: t in s.invitations && s.invitations[t].device == Some(id))
  }

  predicate Persistent(w: World) {
    && Sound(w.s)
    && (w.config.Some? && w.working.Some? ==>
          w.working.value.id == w.config.value.id && w.working.value.secret == w.config.value.secret)
    && (Drawn(w).Some? ==> Mine(w.s, Drawn(w).value.id, Drawn(w).value.secret))
    && (forall c :: c in w.claims ==>
          w.config.Some? && c.id == w.config.value.id && c.secret == w.config.value.secret)
  }

  lemma MineFresh(s: State, id: nat, secret: nat)
    requires Sound(s) && id !in s.devices && secret !in s.secrets
    ensures Mine(s, id, secret)
  {
  }

  lemma MineFrame(s: State, after: State, id: nat, secret: nat)
    requires Mine(s, id, secret) && SamePeople(s, after)
    ensures Mine(after, id, secret)
  {
    if t :| t in s.invitations && s.invitations[t].device == Some(id) { assert t in after.invitations; }
  }

  lemma MineInvites(s: State, token: nat, invitation: nat, library: nat, policy: Policy, now: int, id: nat, secret: nat)
    requires Mine(s, id, secret)
    ensures Mine(Invite(s, token, invitation, library, policy, now).0, id, secret)
  {
    var after := Invite(s, token, invitation, library, policy, now).0;
    if t :| t in s.invitations && s.invitations[t].device == Some(id) {
      assert after.invitations[t].device == Some(id);
    }
  }

  lemma MineWithdraws(s: State, library: nat, invitation: nat, id: nat, secret: nat)
    requires Mine(s, id, secret)
    ensures Mine(Withdraw(s, library, invitation).0, id, secret)
  {
    var after := Withdraw(s, library, invitation).0;
    if t :| t in s.invitations && s.invitations[t].device == Some(id) {
      assert after.invitations[t].device == Some(id);
    }
  }

  /** Another device's claim. */
  lemma MineAmongOthers(s: State, token: nat, who: nat, key: nat, now: int, id: nat, secret: nat)
    requires Mine(s, id, secret) && who != id && key != secret
    ensures Mine(Enroll(s, token, who, key, now).0, id, secret)
  {
    var after := Enroll(s, token, who, key, now).0;
    if t :| t in s.invitations && s.invitations[t].device == Some(id) {
      assert after.invitations[t].device == Some(id);
    }
  }

  /** The directory's own claim, of whatever invitation. */
  lemma MineClaims(s: State, token: nat, now: int, id: nat, secret: nat)
    requires Mine(s, id, secret)
    ensures Mine(Enroll(s, token, id, secret, now).0, id, secret)
  {
    var after := Enroll(s, token, id, secret, now).0;
    if after != s { assert after.invitations[token].device == Some(id); }
  }

  lemma MineUpdates(s: State, library: nat, who: nat, standing: Standing, change: Option<Policy>, id: nat, secret: nat)
    requires Mine(s, id, secret)
    ensures Mine(UpdateDevice(s, library, who, standing, change).0, id, secret)
  {
    var after := UpdateDevice(s, library, who, standing, change).0;
    if t :| t in s.invitations && s.invitations[t].device == Some(id) {
      assert after.invitations[t].device == Some(id);
    }
  }

  lemma MineOthers(s: State, e: Event, id: nat, secret: nat)
    requires Mine(s, id, secret) && (e.Enrolling? ==> e.id != id && e.secret != secret)
    ensures Mine(Next(s, e).0, id, secret)
  {
    hide Mine, Enroll, UpdateDevice, Invite, Withdraw, Known, Committed, OutOfScope;
    match e
    case Inviting(token, invitation, library, policy, now) =>
      MineInvites(s, token, invitation, library, policy, now, id, secret);
    case Withdrawing(library, invitation) => MineWithdraws(s, library, invitation, id, secret);
    case Enrolling(token, who, key, now) => MineAmongOthers(s, token, who, key, now, id, secret);
    case Updating(library, who, standing, change) => MineUpdates(s, library, who, standing, change, id, secret);
    case _ => MineFrame(s, Next(s, e).0, id, secret);
  }

  lemma StepPersists(w: World, step: Step)
    requires Persistent(w) && Random(w, step)
    ensures Persistent(Go(w, step))
  {
    hide Mine, Sound, Enroll, Next;
    match step
    case Starts(id, secret) => if id !in w.s.devices && secret !in w.s.secrets { MineFresh(w.s, id, secret); }
    case Saves =>
    case Asks(token, now, heard) =>
      if w.working.Some? && w.config.Some? {
        EnrollKeeps(w.s, token, w.working.value.id, w.working.value.secret, now);
        MineClaims(w.s, token, now, w.working.value.id, w.working.value.secret);
      }
    case Crashes =>
    case Others(e) =>
      NextKeeps(w.s, e);
      if Drawn(w).Some? { MineOthers(w.s, e, Drawn(w).value.id, Drawn(w).value.secret); }
  }

  const UNENROLLED: World := World(EMPTY, None, None, [])

  lemma {:induction false} PersistentRuns(steps: seq<Step>)
    requires RandomRun(UNENROLLED, steps)
    ensures Persistent(Journey(UNENROLLED, steps))
  {
    hide Persistent, Go, Random;
    if steps == [] {
      NothingClaimed();
    } else {
      PersistentRuns(steps[..|steps| - 1]);
      StepPersists(Journey(UNENROLLED, steps[..|steps| - 1]), steps[|steps| - 1]);
    }
  }

  lemma NothingClaimed()
    ensures Persistent(UNENROLLED)
  {
    NothingStored();
  }

  /** ONE IDENTITY: whatever crashes and lost answers a run has, every claim the directory ever
      made carries the identity it has on disk. */
  lemma OneIdentity(steps: seq<Step>, c: Claim)
    requires RandomRun(UNENROLLED, steps) && c in Journey(UNENROLLED, steps).claims
    ensures var config := Journey(UNENROLLED, steps).config;
            config.Some? && c.id == config.value.id && c.secret == config.value.secret
  {
    PersistentRuns(steps);
  }

  /* ---------------------------------------------------------------- what a claim is answered */

  /** An invitation that can still be claimed. */
  predicate Open(s: State, token: nat, now: int) {
    token in s.invitations && !s.invitations[token].revoked && s.invitations[token].device.None?
    && s.invitations[token].expires > now
  }

  /** The directory was enrolled by another invitation before. */
  predicate EnrolledBefore(s: State, token: nat, id: nat) {
    exists t :: t in s.invitations && t != token && s.invitations[t].device == Some(id)
  }

  /** EVERY ANSWER, EXACTLY. A directory's claim is refused as already claimed exactly when the
      invitation went to another device; as already registered exactly when the invitation is open
      and the directory claimed another one before; and it is enrolled exactly when this invitation
      is its own already, which changes nothing, or is open and its first. */
  lemma ClaimAnswers(s: State, token: nat, id: nat, secret: nat, now: int)
    requires Sound(s) && Mine(s, id, secret)
    ensures var (after, reply) := Enroll(s, token, id, secret, now);
            var own := token in s.invitations && !s.invitations[token].revoked
                       && s.invitations[token].device == Some(id);
            && (reply == Some(Denied(InvitationAlreadyClaimed))
                <==> token in s.invitations && !s.invitations[token].revoked
                     && s.invitations[token].device.Some? && s.invitations[token].device != Some(id))
            && (reply == Some(Denied(DeviceAlreadyRegistered)) <==> Open(s, token, now) && EnrolledBefore(s, token, id))
            && (reply.Some? && reply.value.Enrolled?
                <==> (own && s.devices[id].standing != Revoked)
                     || (Open(s, token, now) && !EnrolledBefore(s, token, id)))
            && (reply.Some? && reply.value.Enrolled? ==>
                  reply == Some(Enrolled(id, s.invitations[token].library)))
            && (own ==> after == s)
  {
    hide Counted, Filed, Matching, Backed, Ordered, Indexed;
    if id in s.devices {
      var t :| t in s.invitations && s.invitations[t].device == Some(id);
      assert t == token || EnrolledBefore(s, token, id);
    }
  }

  /** ENROLMENT RETRIES SAFELY: after any crashes, lost answers and claims, one more claim by the
      directory is answered by exactly these rules; in particular once a claim of this invitation
      went through, every further one gets the same device and library and changes nothing, unless
      the Owner withdrew the invitation or revoked the device. */
  lemma EnrollmentRetries(steps: seq<Step>, token: nat, now: int)
    requires RandomRun(UNENROLLED, steps) && Journey(UNENROLLED, steps).config.Some?
    ensures var w := Journey(UNENROLLED, steps);
            var id, secret := w.config.value.id, w.config.value.secret;
            var (after, reply) := Enroll(w.s, token, id, secret, now);
            && (reply == Some(Denied(DeviceAlreadyRegistered))
                <==> Open(w.s, token, now) && EnrolledBefore(w.s, token, id))
            && (reply == Some(Denied(InvitationAlreadyClaimed)) ==> w.s.invitations[token].device != Some(id))
            && (token in w.s.invitations && w.s.invitations[token].device == Some(id)
                && !w.s.invitations[token].revoked && w.s.devices[id].standing != Revoked ==>
                  after == w.s && reply == Some(Enrolled(id, w.s.invitations[token].library)))
  {
    hide Mine, Sound, Open, EnrolledBefore, Journey, RandomRun, Enroll;
    PersistentRuns(steps);
    var w := Journey(UNENROLLED, steps);
    ClaimAnswers(w.s, token, w.config.value.id, w.config.value.secret, now);
    OwnDevice(w.s, token, w.config.value.id, w.config.value.secret);
  }

  lemma OwnDevice(s: State, token: nat, id: nat, secret: nat)
    requires Mine(s, id, secret)
    ensures token in s.invitations && s.invitations[token].device == Some(id) ==> id in s.devices
  {
  }

  /* ---------------------------------------------------------------- two ways it can go wrong */

  const POLICY: Policy := Policy({0}, None, None)

  lemma TwoInvitations()
    ensures Next(Next(EMPTY, Inviting(1, 1, 0, POLICY, 0)).0, Inviting(2, 2, 0, POLICY, 0)).0
            == EMPTY.(invitations := map[1 := Invitation(1, 0, POLICY, INVITATION_TTL_MS, false, None),
                                         2 := Invitation(2, 0, POLICY, INVITATION_TTL_MS, false, None)])
  {
    var s1 := EMPTY.(invitations := map[1 := Invitation(1, 0, POLICY, INVITATION_TTL_MS, false, None)]);
    assert Next(EMPTY, Inviting(1, 1, 0, POLICY, 0)).0 == s1;
    assert forall t :: t in s1.invitations ==> s1.invitations[t].id == 1;
  }

  /** The same directory run with a second invitation after the first claim's answer was lost: the
      saved identity is reused, and the cloud says it is registered already. */
  lemma SecondInvitationRefused()
    ensures var steps := [Others(Inviting(1, 1, 0, POLICY, 0)), Others(Inviting(2, 2, 0, POLICY, 0)),
                         Starts(5, 6), Saves,
                          Asks(1, 0, false)];
            && RandomRun(UNENROLLED, steps)
            && Enroll(Journey(UNENROLLED, steps).s, 2, 5, 6, 0).1 == Some(Denied(DeviceAlreadyRegistered))
            && Journey(UNENROLLED, steps).config == Some(Config(5, 6, None))
  {
    var steps := [Others(Inviting(1, 1, 0, POLICY, 0)), Others(Inviting(2, 2, 0, POLICY, 0)), Starts(5, 6), Saves,
                  Asks(1, 0, false)];
    var first := Invitation(1, 0, POLICY, INVITATION_TTL_MS, false, None);
    var second := Invitation(2, 0, POLICY, INVITATION_TTL_MS, false, None);
    var s2 := EMPTY.(invitations := map[1 := first, 2 := second]);
    TwoInvitations();
    FiveOnward(UNENROLLED, steps);
    var w4 := World(s2, Some(Config(5, 6, None)), Some(Config(5, 6, None)), []);
    assert Journey(UNENROLLED, steps[..4]) == w4;
  }

  lemma FiveOnward(w: World, steps: seq<Step>)
    requires |steps| == 5
    ensures steps[..4][..3] == steps[..3] && steps[..3][..2] == steps[..2] && steps[..2][..1] == steps[..1]
    ensures Journey(w, steps[..1]) == Go(w, steps[0])
    ensures Journey(w, steps[..2]) == Go(Journey(w, steps[..1]), steps[1])
    ensures Journey(w, steps[..3]) == Go(Journey(w, steps[..2]), steps[2])
    ensures Journey(w, steps[..4]) == Go(Journey(w, steps[..3]), steps[3])
    ensures Journey(w, steps) == Go(Journey(w, steps[..4]), steps[4])
    ensures RandomRun(w, steps) <==>
              (Random(w, steps[0]) && Random(Journey(w, steps[..1]), steps[1])
               && Random(Journey(w, steps[..2]), steps[2])
               && Random(Journey(w, steps[..3]), steps[3]) && Random(Journey(w, steps[..4]), steps[4]))
  {
    assert steps[..4][..3] == steps[..3] && steps[..3][..2] == steps[..2] && steps[..2][..1] == steps[..1];
    assert steps[..1][..0] == [];
    assert RandomRun(w, []) && Journey(w, []) == w;
    assert RandomRun(w, steps[..1]) <==> Random(w, steps[0]);
    assert RandomRun(w, steps[..2]) <==> RandomRun(w, steps[..1]) && Random(Journey(w, steps[..1]), steps[1]);
    assert RandomRun(w, steps[..3]) <==> RandomRun(w, steps[..2]) && Random(Journey(w, steps[..2]), steps[2]);
    assert RandomRun(w, steps[..4]) <==> RandomRun(w, steps[..3]) && Random(Journey(w, steps[..3]), steps[3]);
  }

  /** Why the identity is saved first: a claim whose identity was forgotten cannot be repeated. */
  lemma ForgottenIdentity(s: State, token: nat, id: nat, secret: nat, again: nat, other: nat, now: int)
    requires Open(s, token, now) && id !in s.devices && secret !in s.secrets && again != id
    ensures var after := Enroll(s, token, id, secret, now).0;
            Enroll(after, token, again, other, now).1 == Some(Denied(InvitationAlreadyClaimed))
  {
  }
}
