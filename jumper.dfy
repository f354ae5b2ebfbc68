/**
 * The jumping character: a playable character with a limited number of jumps
 * between landings and a cooldown between two jumps. The shared character
 * state (ground flag, velocity, impulses) lives in the `PlayableCharacter`
 * the jumper is built on; the jump counter, the jumping flag and the time of
 * the last jump are the jumper's own.
 */
module Jumping {
  import opened Geometry
  import opened Characters

  /** The jumper's inspector settings. */
  datatype JumpSettings = JumpSettings(
    jumpForce: real,
    numberOfJumpsAllowed: int,
    cooldownBetweenJumps: real,
    jumpsAllowedWhenGroundedOnly: bool)

  /** What a jump reads and writes. */
  datatype JumpState = JumpState(
    grounded: bool,
    jumpsLeft: int,
    jumping: bool,
    lastJumpTime: real,
    velocity: Vec3,
    impulses: seq<Vec3>)

  /** The three guards of a jump request made at time `now`. */
  predicate CanJump(cfg: JumpSettings, s: JumpState, now: real) {
    && !(cfg.jumpsAllowedWhenGroundedOnly && !s.grounded)
    && s.jumpsLeft != 0
    && !(now - s.lastJumpTime < cfg.cooldownBetweenJumps)
  }

  /**
   * A jump request at `now`: nothing when a guard fails; otherwise one jump
   * used, a falling character stopped, an upward impulse applied, and the
   * time and jumping flag recorded.
   */
  function AfterJumpRequest(cfg: JumpSettings, s: JumpState, now: real): (r: JumpState)
    ensures r.jumpsLeft == s.jumpsLeft <==> r == s
    ensures s.jumpsLeft - 1 <= r.jumpsLeft <= s.jumpsLeft
    ensures JumpsInRange(cfg, s) ==> JumpsInRange(cfg, r)
    ensures r.grounded == s.grounded
    ensures |s.impulses| <= |r.impulses| <= |s.impulses| + 1 && r.impulses[..|s.impulses|] == s.impulses
  {
    if !CanJump(cfg, s, now) then s
    else
      s.(jumpsLeft := s.jumpsLeft - 1,
         velocity := if s.velocity.y < 0.0 then Vec3(0.0, 0.0, 0.0) else s.velocity,
         impulses := s.impulses + [Vec3(0.0, cfg.jumpForce, 0.0)],
         lastJumpTime := now,
         jumping := true)
  }

  /** Touching ground from above: grounded, no longer jumping, jumps refilled. */
  function AfterCollisionEnter(cfg: JumpSettings, s: JumpState, other: Collider, y: real): (r: JumpState)
    ensures r == s || (r.grounded && JumpsInRange(cfg, r))
    ensures s.grounded ==> r.grounded
    ensures r.velocity == s.velocity && r.impulses == s.impulses && r.lastJumpTime == s.lastJumpTime
  {
    if other.onGroundLayer && other.y <= y
    then s.(grounded := true, jumping := false, jumpsLeft := cfg.numberOfJumpsAllowed)
    else s
  }

  /** The jump counter lies between 0 and the allowance, when the allowance is not negative. */
  predicate JumpsInRange(cfg: JumpSettings, s: JumpState) {
    cfg.numberOfJumpsAllowed >= 0 ==> 0 <= s.jumpsLeft <= cfg.numberOfJumpsAllowed
  }

  // ---------------------------------------------------------------------
  // What a jump request promises

  /** Each guard alone blocks the request, which then changes nothing. */
  lemma BlockedRequestChangesNothing(cfg: JumpSettings, s: JumpState, now: real)
    requires || (cfg.jumpsAllowedWhenGroundedOnly && !s.grounded)
             || s.jumpsLeft == 0
             || now - s.lastJumpTime < cfg.cooldownBetweenJumps
    ensures AfterJumpRequest(cfg, s, now) == s
  {
  }

  /**
   * A request that passes the guards uses exactly one jump, records `now`,
   * sets the jumping flag, applies one upward impulse of `jumpForce`, and
   * zeroes the velocity only when the character was falling.
   */
  lemma GrantedRequestJumps(cfg: JumpSettings, s: JumpState, now: real)
    requires CanJump(cfg, s, now)
    ensures var r := AfterJumpRequest(cfg, s, now);
      && r.jumpsLeft == s.jumpsLeft - 1
      && r.lastJumpTime == now && r.jumping
      && r.impulses == s.impulses + [Vec3(0.0, cfg.jumpForce, 0.0)]
      && (s.velocity.y < 0.0 ==> r.velocity == Vec3(0.0, 0.0, 0.0))
      && (s.velocity.y >= 0.0 ==> r.velocity == s.velocity)
      && r.grounded == s.grounded
  {
  }

  /** Requests and landings keep the jump counter within `[0, numberOfJumpsAllowed]`. */
  lemma JumpsStayInRange(cfg: JumpSettings, s: JumpState, now: real, other: Collider, y: real)
    requires JumpsInRange(cfg, s)
    ensures JumpsInRange(cfg, AfterJumpRequest(cfg, s, now))
    ensures JumpsInRange(cfg, AfterCollisionEnter(cfg, s, other, y))
  {
  }

  /** `AfterJumpRequest` applied to requests at the given times, in order. */
  function AfterJumpRequests(cfg: JumpSettings, s: JumpState, times: seq<real>): JumpState
    decreases |times|
  {
    if times == [] then s else AfterJumpRequests(cfg, AfterJumpRequest(cfg, s, times[0]), times[1..])
  }

  /** How many of those requests were granted. */
  function JumpsGranted(cfg: JumpSettings, s: JumpState, times: seq<real>): nat
    decreases |times|
  {
    if times == [] then 0
    else (if CanJump(cfg, s, times[0]) then 1 else 0)
         + JumpsGranted(cfg, AfterJumpRequest(cfg, s, times[0]), times[1..])
  }

  /**
   * Without a landing in between, no sequence of requests is granted more
   * jumps than were left, and each granted jump uses exactly one.
   */
  lemma {:induction false} JumpsBoundedBetweenLandings(cfg: JumpSettings, s: JumpState, times: seq<real>)
    requires 0 <= s.jumpsLeft
    ensures JumpsGranted(cfg, s, times) <= s.jumpsLeft
    ensures AfterJumpRequests(cfg, s, times).jumpsLeft == s.jumpsLeft - JumpsGranted(cfg, s, times)
    decreases |times|
  {
    if times != [] {
      JumpsBoundedBetweenLandings(cfg, AfterJumpRequest(cfg, s, times[0]), times[1..]);
    }
  }

  /**
   * The counter is only compared with 0: with a negative allowance a landing
   * leaves it negative, and a jump keeps it negative, so the counter does
   * not stop a request. Integers here are unbounded: the 32-bit counter of
   * the source would wrap from its minimum to its maximum.
   */
  lemma NegativeAllowanceNeverRunsOut(cfg: JumpSettings, s: JumpState, now: real, other: Collider, y: real)
    requires cfg.numberOfJumpsAllowed < 0
    requires other.onGroundLayer && other.y <= y
    ensures var landed := AfterCollisionEnter(cfg, s, other, y);
      && landed.jumpsLeft < 0
      && AfterJumpRequest(cfg, landed, now).jumpsLeft < 0
  {
  }

  // ---------------------------------------------------------------------
  // The jumper, updated in place

  class Jumper {
    const settings: JumpSettings
    /** The character this jumper extends. */
    const body: PlayableCharacter
    var jumpsLeft: int
    var jumping: bool
    var lastJumpTime: real

    function State(): JumpState
      reads this, body
    {
      JumpState(body.grounded, jumpsLeft, jumping, lastJumpTime, body.velocity, body.impulses)
    }

    ghost predicate Valid()
      reads this, body
    {
      JumpsInRange(settings, State())
    }

    /** A jumper whose counter, flag and last jump time hold their defaults (0, false, 0). */
    constructor (settings: JumpSettings, body: PlayableCharacter)
      ensures Valid()
      ensures this.settings == settings && this.body == body
      ensures jumpsLeft == 0 && !jumping && lastJumpTime == 0.0
    {
      this.settings := settings;
      this.body := body;
      jumpsLeft := 0;
      jumping := false;
      lastJumpTime := 0.0;
    }

    /** The main action (jump) pressed at time `now`. */
    method MainActionStart(now: real)
      requires Valid()
      modifies this, body`velocity, body`impulses
      ensures Valid()
      ensures State() == AfterJumpRequest(settings, old(State()), now)
    {
      if settings.jumpsAllowedWhenGroundedOnly && !body.IsGrounded() {
        return;
      }
      if jumpsLeft == 0 {
        return;
      }
      if now - lastJumpTime < settings.cooldownBetweenJumps {
        return;
      }
      jumpsLeft := jumpsLeft - 1;
      if body.velocity.y < 0.0 {
        body.velocity := Vec3(0.0, 0.0, 0.0);
      }
      body.impulses := body.impulses + [Vec3(0.0, settings.jumpForce, 0.0)];
      lastJumpTime := now;
      jumping := true;
    }

    /** The physics step: the jumping flag is always cleared, then the position reset applies. */
    method FixedUpdate()
      requires Valid()
      modifies this`jumping, body`velocity
      ensures Valid()
      ensures !jumping
      ensures State() == old(State()).(jumping := false, velocity := body.velocity)
      ensures body.SteeredFrom(old(body.velocity))
    {
      jumping := false;
      body.ResetPosition();
    }

    /** The jumper's own ground contact: it also refills the jumps and ends the jump. */
    method CollisionEnter(other: Collider)
      requires Valid()
      modifies this`jumping, this`jumpsLeft, body`grounded
      ensures Valid()
      ensures State() == AfterCollisionEnter(settings, old(State()), other, body.position.y)
    {
      if other.onGroundLayer {
        if other.y <= body.position.y {
          body.grounded := true;
          jumping := false;
          jumpsLeft := settings.numberOfJumpsAllowed;
        }
      }
    }

    /** Leaving the ground is handled as for any playable character. */
    method CollisionExit(other: Collider)
      requires Valid()
      modifies body`grounded
      ensures Valid()
      ensures State() == old(State()).(grounded := old(State()).grounded && !other.onGroundLayer)
    {
      body.CollisionExit(other);
    }
  }
}
