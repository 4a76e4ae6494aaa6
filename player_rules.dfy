/**
 * The rules of PlayerManager as functions of a value: the six fields its
 * handlers update, the context the handlers read (element type, weapon
 * prefab, bullet key, cooldown) and the effects each handler asks for.
 * The class in module Players is proved to follow these rules step by step;
 * the properties the game relies on are stated here, on the rules, and on
 * runs of several events.
 */
module PlayerRules {
  import opened Engine

  // Element types, as GameManager sets PlayerManager.LocalPlayerType.
  const FireElement := "FireElement"
  const ElectricElement := "ElectricElement"
  const RancherElement := "RancherElement"
  const IceElement := "IceElement"
  const StoneElement := "StoneElement"

  // Prefab names.
  const FireBallPrefab := "FireBall"
  const ElectricArcPrefab := "ElectricArc"
  const IceCrystalPrefab := "IceCrystal"
  const StoneChargePrefab := "StoneCharge"
  const RancherSwordPrefab := "RancherSword"
  const ElectricFieldPrefab := "ElectricField"

  // Collider tags.
  const BulletTag := "Bullet"
  const ObstacleTag := "Obstacle"
  const HealthPackTag := "HealthPack"
  const ElectricFieldTag := "ElectricField"

  /** The bullet key a PlayerManager starts with; Awake replaces it on the owner. */
  const DefaultBulletKey := "MyBullet"
  const BulletKeySuffix := "_Bullet"
  const SetElectricFieldParentRpc := "SetElectricFieldParent"

  const BulletDamage: real := 0.1
  const ObstacleDamage: real := 0.05
  const FieldEnterDamage: real := 0.05
  const FieldStayDamage: real := 0.01
  const HealthPackHeal: real := 0.5
  const MaxHealth: real := 1.0

  /** Number of projectiles of the fire ultra: one per 30 degrees of a full turn. */
  const BurstSize: nat := 12
  const BurstStep: real := 30.0

  /** The fields of a PlayerManager that its handlers write. */
  datatype PlayerState = PlayerState(
    health: real,
    damageTaken: real,
    isFiring: bool,
    usingUltra: bool,
    nextShotTime: real,
    nextContinuesDamageTime: real)

  /** What the handlers read and never write. */
  datatype Context = Context(
    localPlayerType: string, // the static PlayerManager.LocalPlayerType
    weaponPrefab: string,    // the static localWeaponPrefabName
    bulletKey: string,       // myBulletKeyName
    timeBetweenShots: real)

  /** One frame's input samples: the right stick's two axes and the Ultra button's release. */
  datatype InputSample = InputSample(horizontal: real, vertical: real, ultraReleased: bool)

  /** A handler's new state and the effects it asked for, in order. */
  datatype Outcome = Outcome(state: PlayerState, effects: seq<Effect>)

  /** What a replication read leaves: the new state, the unread rest of the stream, success. */
  datatype ReadOutcome = ReadOutcome(state: PlayerState, rest: seq<StreamValue>, ok: bool)

  /** Awake's switch: the weapon prefab of each element type; any other type gets the fire ball. */
  function WeaponPrefab(localPlayerType: string): (r: string)
    ensures localPlayerType == ElectricElement <==> r == ElectricArcPrefab
    ensures localPlayerType == RancherElement <==> r == RancherSwordPrefab
    ensures localPlayerType == IceElement <==> r == IceCrystalPrefab
    ensures localPlayerType == StoneElement <==> r == StoneChargePrefab
    ensures r == FireBallPrefab <==>
      localPlayerType !in {ElectricElement, RancherElement, IceElement, StoneElement}
  {
    match localPlayerType
    case "FireElement" => FireBallPrefab
    case "ElectricElement" => ElectricArcPrefab
    case "RancherElement" => RancherSwordPrefab
    case "IceElement" => IceCrystalPrefab
    case "StoneElement" => StoneChargePrefab
    case _ => FireBallPrefab
  }

  /** The bullet key Awake gives the owner's PlayerManager. */
  function OwnerBulletKey(playerName: string): (r: string)
    ensures |r| == |playerName| + |BulletKeySuffix|
    ensures r[..|playerName|] == playerName && r[|playerName|..] == BulletKeySuffix
  {
    playerName + BulletKeySuffix
  }

  /**
   * ProcessInputs' firing flag, `shootVec.magnitude > 0`: the magnitude
   * sqrt(x * x + y * y) of exact reals is positive exactly when one of the
   * two axes is away from zero.
   */
  predicate Firing(input: InputSample)
  {
    input.horizontal != 0.0 || input.vertical != 0.0
  }

  /** The projectile CmdShoot spawns: the weapon prefab, aimed by the input, named by the bullet key. */
  function Shot(ctx: Context, input: InputSample): Effect
  {
    Spawn(ctx.weaponPrefab, AimedBy(input.horizontal, input.vertical), Some(ctx.bulletKey))
  }

  predicate IsShot(e: Effect)
  {
    e.Spawn? && e.heading.AimedBy?
  }

  /** The number of primary shots in a log. */
  function Shots(log: seq<Effect>): nat
  {
    if log == [] then 0 else Shots(log[..|log| - 1]) + (if IsShot(log[|log| - 1]) then 1 else 0)
  }

  /** The first `n` projectiles of the fire ultra, in loop order. */
  function FireBurst(weapon: string, key: string, n: nat): (r: seq<Effect>)
    ensures |r| == n
    ensures forall i :: 0 <= i < n ==> r[i] == Spawn(weapon, Degrees(BurstStep * i as real), Some(key))
  {
    if n == 0 then [] else FireBurst(weapon, key, n - 1) + [Spawn(weapon, Degrees(BurstStep * (n - 1) as real), Some(key))]
  }

  /**
   * UseUltra's dispatch on the element type, for effects that start at log
   * index `at`: a radial burst for fire, a field and its buffered parenting
   * call for electricity, nothing for every other type.
   */
  function UltraEffects(ctx: Context, at: nat): (r: seq<Effect>)
    ensures ctx.localPlayerType == FireElement ==>
      |r| == BurstSize &&
      forall i :: 0 <= i < |r| ==>
        r[i].Spawn? && r[i].prefab == ctx.weaponPrefab && r[i].colliderName == Some(ctx.bulletKey) &&
        r[i].heading == Degrees(BurstStep * i as real) && 0.0 <= r[i].heading.deg < 360.0
    ensures ctx.localPlayerType == ElectricElement ==>
      r == [Spawn(ElectricFieldPrefab, Unrotated, None),
            Rpc(SetElectricFieldParentRpc, AllBuffered, ThisObject, [Spawned(at)])]
    ensures ctx.localPlayerType !in {FireElement, ElectricElement} ==> r == []
    ensures forall i :: 0 <= i < |r| ==> !IsShot(r[i]) && r[i] != LeaveRoom
    ensures Shots(r) == 0
  {
    var r :=
      if ctx.localPlayerType == FireElement then FireBurst(ctx.weaponPrefab, ctx.bulletKey, BurstSize)
      else if ctx.localPlayerType == ElectricElement then
        [Spawn(ElectricFieldPrefab, Unrotated, None),
         Rpc(SetElectricFieldParentRpc, AllBuffered, ThisObject, [Spawned(at)])]
      else [];
    NoShots(r);
    r
  }

  lemma {:induction false} NoShots(log: seq<Effect>)
    requires forall i :: 0 <= i < |log| ==> !IsShot(log[i])
    ensures Shots(log) == 0
    decreases |log|
  {
    if log != [] {
      NoShots(log[..|log| - 1]);
    }
  }

  lemma {:induction false} ShotsAppend(a: seq<Effect>, b: seq<Effect>)
    ensures Shots(a + b) == Shots(a) + Shots(b)
    decreases |b|
  {
    if b == [] {
      assert a + b == a;
    } else {
      assert (a + b)[..|a + b| - 1] == a + b[..|b| - 1];
      ShotsAppend(a, b[..|b| - 1]);
    }
  }

  /** The foreign-projectile test: the collider's name does not contain our bullet key. */
  predicate Foreign(obj: Collider, ctx: Context)
  {
    !Contains(obj.name, ctx.bulletKey)
  }

  /** The electric element's ultra shields it from obstacles. */
  predicate Shielded(s: PlayerState, ctx: Context)
  {
    s.usingUltra && ctx.localPlayerType == ElectricElement
  }

  /** Both halves of removing a hit object: its network object and its collider. */
  function Remove(obj: Collider): seq<Effect>
  {
    [NetDestroy(HitObject(obj)), LocalDestroy(HitCollider(obj))]
  }

  /**
   * OnTriggerEnter2D. Rules run in source order; the shielded obstacle
   * returns early. Only health, damage taken and the effect log can change.
   */
  function EnterRule(s: PlayerState, ctx: Context, isMine: bool, obj: Collider): (r: Outcome)
    // a non-owner ignores the event
    ensures !isMine ==> r == Outcome(s, [])
    // nothing but health and damage taken changes
    ensures r.state == s.(health := r.state.health, damageTaken := r.state.damageTaken)
    ensures isMine && obj.tag == BulletTag && Foreign(obj, ctx) ==>
      r.state.health == s.health - BulletDamage &&
      r.state.damageTaken == s.damageTaken + BulletDamage &&
      r.effects == Remove(obj)
    ensures obj.tag == BulletTag && !Foreign(obj, ctx) ==> r == Outcome(s, [])
    ensures isMine && obj.tag == ObstacleTag ==>
      r.effects == [] &&
      if Shielded(s, ctx) then r.state == s
      else r.state.health == s.health - ObstacleDamage &&
           r.state.damageTaken == s.damageTaken + ObstacleDamage
    ensures isMine && obj.tag == HealthPackTag ==>
      r.state.health == (if s.health + HealthPackHeal > MaxHealth then MaxHealth else s.health + HealthPackHeal) &&
      r.state.damageTaken == s.damageTaken &&
      r.effects == Remove(obj)
    ensures isMine && obj.tag == ElectricFieldTag ==>
      r.state.health == (if Foreign(obj, ctx) then s.health - FieldEnterDamage else s.health) &&
      r.state.damageTaken == s.damageTaken && r.effects == []
    ensures obj.tag !in {BulletTag, ObstacleTag, HealthPackTag, ElectricFieldTag} ==> r == Outcome(s, [])
    // damage taken never decreases, and grows exactly for a foreign bullet or an unshielded obstacle
    ensures r.state.damageTaken >= s.damageTaken
    ensures r.state.damageTaken > s.damageTaken <==>
      isMine && ((obj.tag == BulletTag && Foreign(obj, ctx)) || (obj.tag == ObstacleTag && !Shielded(s, ctx)))
    // no rule lifts health above the maximum
    ensures s.health <= MaxHealth ==> r.state.health <= MaxHealth
  {
    if !isMine then Outcome(s, [])
    else
      var bullet := obj.tag == BulletTag && Foreign(obj, ctx);
      var s1 := if bullet then s.(health := s.health - BulletDamage, damageTaken := s.damageTaken + BulletDamage) else s;
      var e1 := if bullet then Remove(obj) else [];
      if obj.tag == ObstacleTag && Shielded(s1, ctx) then Outcome(s1, e1)
      else
        var s2 := if obj.tag == ObstacleTag then s1.(health := s1.health - ObstacleDamage, damageTaken := s1.damageTaken + ObstacleDamage) else s1;
        var pack := obj.tag == HealthPackTag;
        var healed := s2.health + HealthPackHeal;
        var s3 := if pack then s2.(health := if healed > MaxHealth then MaxHealth else healed) else s2;
        var e3 := if pack then e1 + Remove(obj) else e1;
        var s4 := if obj.tag == ElectricFieldTag && Foreign(obj, ctx) then s3.(health := s3.health - FieldEnterDamage) else s3;
        Outcome(s4, e3)
  }

  /**
   * OnTriggerStay2D: acts only once the shared timer has passed, then
   * re-arms it for any collider; only a foreign electric field costs health.
   * There is no ownership test.
   */
  function StayRule(s: PlayerState, ctx: Context, now: real, obj: Collider): (r: PlayerState)
    ensures now <= s.nextContinuesDamageTime ==> r == s
    ensures now > s.nextContinuesDamageTime ==> r.nextContinuesDamageTime == now + ctx.timeBetweenShots
    ensures r.health ==
      if now > s.nextContinuesDamageTime && obj.tag == ElectricFieldTag && Foreign(obj, ctx)
      then s.health - FieldStayDamage else s.health
    ensures r == s.(health := r.health, nextContinuesDamageTime := r.nextContinuesDamageTime)
    ensures r.health <= s.health
  {
    if now > s.nextContinuesDamageTime then
      var s1 := s.(nextContinuesDamageTime := now + ctx.timeBetweenShots);
      if obj.tag == ElectricFieldTag && Foreign(obj, ctx) then s1.(health := s1.health - FieldStayDamage) else s1
    else s
  }

  /**
   * Update, for a log that already holds `base` effects: leave the room while
   * health is used up, sample the inputs, shoot when the cooldown allows, and
   * run the ultra while its flag is up.
   */
  function UpdateRule(s: PlayerState, ctx: Context, isMine: bool, connected: bool, now: real,
                      input: InputSample, base: nat): (r: Outcome)
    ensures !isMine && connected ==> r == Outcome(s, [])
    ensures !(!isMine && connected) ==>
      r.state.isFiring == (input.horizontal != 0.0 || input.vertical != 0.0) &&
      r.state.usingUltra == input.ultraReleased
    ensures r.state.health == s.health && r.state.damageTaken == s.damageTaken
    ensures r.state.nextContinuesDamageTime == s.nextContinuesDamageTime
    // at most one shot per call, exactly when firing and the cooldown has elapsed
    ensures Shots(r.effects) <= 1
    ensures Shots(r.effects) == 1 <==>
      !(!isMine && connected) && Firing(input) && s.nextShotTime <= now
    ensures r.state.nextShotTime ==
      if Shots(r.effects) == 1 then now + ctx.timeBetweenShots else s.nextShotTime
    ensures !(!isMine && connected) && s.health <= 0.0 ==> |r.effects| > 0 && r.effects[0] == LeaveRoom
  {
    if !isMine && connected then Outcome(s, [])
    else
      var leave := LeaveEffects(s);
      var shoot := ShootsNow(s, now, input);
      var shot := ShotEffects(s, ctx, now, input);
      var ultra := if input.ultraReleased then UltraEffects(ctx, base + (|leave| + |shot|)) else [];
      TickShots(leave, shot, ultra, shoot);
      Outcome(TickState(s, ctx, now, input), leave + shot + ultra)
  }

  /** An owner's frame asks to leave the room exactly while health is used up; an observer's never does. */
  lemma UpdateLeavesOnlyWhenSpent(s: PlayerState, ctx: Context, isMine: bool, connected: bool, now: real,
                                  input: InputSample, base: nat)
    ensures LeaveRoom in UpdateRule(s, ctx, isMine, connected, now, input, base).effects <==>
      !(!isMine && connected) && s.health <= 0.0
  {
    if !(!isMine && connected) {
      var leave, shot := LeaveEffects(s), ShotEffects(s, ctx, now, input);
      var ultra := if input.ultraReleased then UltraEffects(ctx, base + (|leave| + |shot|)) else [];
      assert UpdateRule(s, ctx, isMine, connected, now, input, base).effects == leave + shot + ultra;
      FrameLog(s, ctx, now, input, base);
    }
  }

  /** Every primary shot an Update logs is the one CmdShoot builds from the context and the input. */
  lemma UpdateShotIsCmdShoot(s: PlayerState, ctx: Context, isMine: bool, connected: bool, now: real,
                             input: InputSample, base: nat)
    ensures var e := UpdateRule(s, ctx, isMine, connected, now, input, base).effects;
      forall i :: 0 <= i < |e| && IsShot(e[i]) ==> e[i] == Shot(ctx, input)
    ensures Shots(UpdateRule(s, ctx, isMine, connected, now, input, base).effects) == 1 ==>
      Shot(ctx, input) in UpdateRule(s, ctx, isMine, connected, now, input, base).effects
  {
    if !(!isMine && connected) {
      var leave, shot := LeaveEffects(s), ShotEffects(s, ctx, now, input);
      var ultra := if input.ultraReleased then UltraEffects(ctx, base + (|leave| + |shot|)) else [];
      assert UpdateRule(s, ctx, isMine, connected, now, input, base).effects == leave + shot + ultra;
      FrameLog(s, ctx, now, input, base);
    }
  }

  /**
   * After the leave request and the shot, an owner's frame runs the ultra of
   * its element type whenever the release sample holds, with no cooldown, and
   * logs nothing more otherwise.
   */
  lemma UpdateUltraTail(s: PlayerState, ctx: Context, isMine: bool, connected: bool, now: real,
                        input: InputSample, base: nat)
    ensures !(!isMine && connected) ==>
      var e := UpdateRule(s, ctx, isMine, connected, now, input, base).effects;
      var k := |LeaveEffects(s)| + |ShotEffects(s, ctx, now, input)|;
      k <= |e| && e[k..] == (if input.ultraReleased then UltraEffects(ctx, base + k) else [])
  {
    if !(!isMine && connected) {
      var leave, shot := LeaveEffects(s), ShotEffects(s, ctx, now, input);
      var ultra := if input.ultraReleased then UltraEffects(ctx, base + (|leave| + |shot|)) else [];
      assert UpdateRule(s, ctx, isMine, connected, now, input, base).effects == leave + shot + ultra;
      FrameLog(s, ctx, now, input, base);
    }
  }

  /** The facts the three lemmas above read off an owner's log. */
  lemma FrameLog(s: PlayerState, ctx: Context, now: real, input: InputSample, base: nat)
    ensures var leave, shot := LeaveEffects(s), ShotEffects(s, ctx, now, input);
      var ultra := if input.ultraReleased then UltraEffects(ctx, base + (|leave| + |shot|)) else [];
      var e := leave + shot + ultra;
      (LeaveRoom in e <==> s.health <= 0.0) &&
      (forall i :: 0 <= i < |e| && IsShot(e[i]) ==> e[i] == Shot(ctx, input)) &&
      (ShootsNow(s, now, input) ==> Shot(ctx, input) in e) &&
      e[|leave| + |shot|..] == ultra
  {
    var leave, shot := LeaveEffects(s), ShotEffects(s, ctx, now, input);
    var ultra := if input.ultraReleased then UltraEffects(ctx, base + (|leave| + |shot|)) else [];
    TickEffects(leave + shot + ultra, leave, shot, ultra, ShootsNow(s, now, input), Shot(ctx, input));
  }

  /**
   * An owner's (or an unconnected copy's) Update, step by step: the log grows
   * by the leave request, then the shot, then the ultra.
   */
  lemma UpdateRuleSteps(s: PlayerState, ctx: Context, isMine: bool, connected: bool, now: real,
                        input: InputSample, e0: seq<Effect>, e1: seq<Effect>, e2: seq<Effect>, e3: seq<Effect>)
    requires !(!isMine && connected)
    requires e1 == e0 + LeaveEffects(s)
    requires e2 == e1 + ShotEffects(s, ctx, now, input)
    requires e3 == e2 + if input.ultraReleased then UltraEffects(ctx, |e2|) else []
    ensures e3 == e0 + UpdateRule(s, ctx, isMine, connected, now, input, |e0|).effects
    ensures UpdateRule(s, ctx, isMine, connected, now, input, |e0|).state == TickState(s, ctx, now, input)
  {
    var leave, shot := LeaveEffects(s), ShotEffects(s, ctx, now, input);
    var ultra := if input.ultraReleased then UltraEffects(ctx, |e2|) else [];
    assert |e2| == |e0| + |leave| + |shot|;
    AppendAssociates(e0, leave, shot, ultra);
  }

  /** Update's first step: ask to leave the room while health is used up. */
  function LeaveEffects(s: PlayerState): seq<Effect>
  {
    if s.health <= 0.0 then [LeaveRoom] else []
  }

  /** Update shoots when the input fires and the cooldown has elapsed. */
  predicate ShootsNow(s: PlayerState, now: real, input: InputSample)
  {
    Firing(input) && s.nextShotTime <= now
  }

  function ShotEffects(s: PlayerState, ctx: Context, now: real, input: InputSample): seq<Effect>
  {
    if ShootsNow(s, now, input) then [Shot(ctx, input)] else []
  }

  /** The fields an owner's Update writes: the two input flags and the shot timer. */
  function TickState(s: PlayerState, ctx: Context, now: real, input: InputSample): PlayerState
  {
    var s1 := s.(isFiring := Firing(input), usingUltra := input.ultraReleased);
    if ShootsNow(s, now, input) then s1.(nextShotTime := now + ctx.timeBetweenShots) else s1
  }

  lemma TickShots(leave: seq<Effect>, shot: seq<Effect>, ultra: seq<Effect>, shoot: bool)
    requires leave == [] || leave == [LeaveRoom]
    requires shot == [] || (|shot| == 1 && IsShot(shot[0]))
    requires shoot <==> shot != []
    requires Shots(ultra) == 0
    ensures Shots(leave + shot + ultra) == if shoot then 1 else 0
  {
    ShotsAppend(leave, shot);
    ShotsAppend(leave + shot, ultra);
    NoShots(leave);
    if shoot { assert shot[..0] == []; } else { NoShots(shot); }
  }

  /**
   * The log of an owner's frame, from its three parts: one shot exactly when
   * it shoots, a leave request only from the first part, every primary shot
   * the one fired, and the ultra as the tail after the first two parts.
   */
  lemma TickEffects(e: seq<Effect>, leave: seq<Effect>, shot: seq<Effect>, ultra: seq<Effect>, shoot: bool, fired: Effect)
    requires e == leave + shot + ultra
    requires leave == [] || leave == [LeaveRoom]
    requires IsShot(fired) && shot == if shoot then [fired] else []
    requires forall i :: 0 <= i < |ultra| ==> !IsShot(ultra[i]) && ultra[i] != LeaveRoom
    ensures Shots(e) == if shoot then 1 else 0
    ensures LeaveRoom in e <==> leave != []
    ensures forall i :: 0 <= i < |e| && IsShot(e[i]) ==> e[i] == fired
    ensures |leave| + |shot| <= |e| && e[|leave| + |shot|..] == ultra
  {
    NoShots(ultra);
    TickShots(leave, shot, ultra, shoot);
    assert e[|leave| + |shot|..] == ultra;
    assert LeaveRoom !in ultra;
    forall i | 0 <= i < |e| && IsShot(e[i])
      ensures e[i] == fired
    {
      if |leave| <= i < |leave| + |shot| {
        assert e[i] == shot[i - |leave|];
      }
    }
  }

  /** The snapshot the owner writes: IsFiring, Health, UsingUltra, in that order. */
  function WritePlayerView(s: PlayerState): seq<StreamValue>
  {
    [BoolValue(s.isFiring), FloatValue(s.health), BoolValue(s.usingUltra)]
  }

  /**
   * The observer's read of the same three items. Each cast that meets a
   * missing item or one of the wrong type throws: the fields read before it
   * keep their new values and nothing more is read.
   */
  function ReadPlayerView(s: PlayerState, stream: seq<StreamValue>): (r: ReadOutcome)
    ensures r.state == s.(isFiring := r.state.isFiring, health := r.state.health, usingUltra := r.state.usingUltra)
    ensures r.ok <==> |stream| >= 3 && stream[0].BoolValue? && stream[1].FloatValue? && stream[2].BoolValue?
    ensures r.ok ==> r.state.isFiring == stream[0].b && r.state.health == stream[1].f &&
                     r.state.usingUltra == stream[2].b && r.rest == stream[3..]
    ensures !r.ok ==> r.rest == [] && r.state.usingUltra == s.usingUltra
    // a failed read keeps the fields it had already read
    ensures !r.ok ==> r.state.isFiring == (if |stream| > 0 && stream[0].BoolValue? then stream[0].b else s.isFiring)
    ensures !r.ok ==>
      r.state.health == if |stream| > 1 && stream[0].BoolValue? && stream[1].FloatValue? then stream[1].f else s.health
  {
    if |stream| == 0 || !stream[0].BoolValue? then ReadOutcome(s, [], false)
    else
      var s1 := s.(isFiring := stream[0].b);
      if |stream| < 2 || !stream[1].FloatValue? then ReadOutcome(s1, [], false)
      else
        var s2 := s1.(health := stream[1].f);
        if |stream| < 3 || !stream[2].BoolValue? then ReadOutcome(s2, [], false)
        else ReadOutcome(s2.(usingUltra := stream[2].b), stream[3..], true)
  }

  /** Reading back what the owner wrote restores exactly the three replicated fields. */
  lemma PlayerViewRoundTrip(writer: PlayerState, reader: PlayerState, rest: seq<StreamValue>)
    ensures ReadPlayerView(reader, WritePlayerView(writer) + rest) ==
      ReadOutcome(reader.(isFiring := writer.isFiring, health := writer.health, usingUltra := writer.usingUltra), rest, true)
  {
  }

  // Runs of several events.

  /** A sequence of trigger-enter events, each applied to the previous outcome. */
  function ApplyEnters(s: PlayerState, ctx: Context, isMine: bool, objs: seq<Collider>): Outcome
    decreases |objs|
  {
    if objs == [] then Outcome(s, [])
    else
      var first := EnterRule(s, ctx, isMine, objs[0]);
      var later := ApplyEnters(first.state, ctx, isMine, objs[1..]);
      Outcome(later.state, first.effects + later.effects)
  }

  /** Over any run of enter events health stays at most 1 and damage taken never falls. */
  lemma {:induction false} EntersKeepHealthBounded(s: PlayerState, ctx: Context, isMine: bool, objs: seq<Collider>)
    requires s.health <= MaxHealth
    ensures ApplyEnters(s, ctx, isMine, objs).state.health <= MaxHealth
    ensures ApplyEnters(s, ctx, isMine, objs).state.damageTaken >= s.damageTaken
    decreases |objs|
  {
    if objs != [] {
      EntersKeepHealthBounded(EnterRule(s, ctx, isMine, objs[0]).state, ctx, isMine, objs[1..]);
    }
  }

  /**
   * Destroys are not deduplicated: every enter of a foreign bullet or a health
   * pack asks the network to destroy it, however often the same object overlaps.
   */
  lemma {:induction false} EnterDestroysCounted(s: PlayerState, ctx: Context, objs: seq<Collider>, c: Collider)
    requires c.tag == HealthPackTag
    requires forall i :: 0 <= i < |objs| ==> objs[i] == c
    ensures NetDestroys(ApplyEnters(s, ctx, true, objs).effects, HitObject(c)) == |objs|
    decreases |objs|
  {
    if objs != [] {
      var first := EnterRule(s, ctx, true, objs[0]);
      EnterDestroysCounted(first.state, ctx, objs[1..], c);
      NetDestroysAppend(first.effects, ApplyEnters(first.state, ctx, true, objs[1..]).effects, HitObject(c));
      assert first.effects == [NetDestroy(HitObject(c))] + [LocalDestroy(HitCollider(c))];
      NetDestroysAppend([NetDestroy(HitObject(c))], [LocalDestroy(HitCollider(c))], HitObject(c));
      assert [NetDestroy(HitObject(c))][..0] == [];
      assert [LocalDestroy(HitCollider(c))][..0] == [];
    }
  }

  /** Two overlaps of one pack at health 0.9: health tops out at 1 and the pack is destroyed twice. */
  lemma DoublePackOverlap(s: PlayerState, ctx: Context, c: Collider)
    requires s.health == 0.9 && c.tag == HealthPackTag
    ensures ApplyEnters(s, ctx, true, [c, c]).state.health == MaxHealth
    ensures NetDestroys(ApplyEnters(s, ctx, true, [c, c]).effects, HitObject(c)) == 2
  {
    EnterDestroysCounted(s, ctx, [c, c], c);
    assert [c, c][1..] == [c];
    assert [c][1..] == [];
    var s1 := EnterRule(s, ctx, true, c).state;
    assert s1.health == MaxHealth;
    assert EnterRule(s1, ctx, true, c).state.health == MaxHealth;
    assert ApplyEnters(s1, ctx, true, [c]).state == EnterRule(s1, ctx, true, c).state;
  }

  /** Health has no lower clamp: a bullet at health 0.05 leaves it negative. */
  lemma BulletDrivesHealthNegative(s: PlayerState, ctx: Context, c: Collider)
    requires s.health == 0.05 && c.tag == BulletTag && Foreign(c, ctx)
    ensures EnterRule(s, ctx, true, c).state.health < 0.0
  {
  }

  /**
   * The foreign-bullet test is a substring test: a player whose key is a
   * suffix of another player's key is not hurt by that player's bullets.
   */
  lemma SuffixNameIsNotForeign(s: PlayerState, ctx: Context)
    requires ctx.bulletKey == OwnerBulletKey("Bob")
    ensures EnterRule(s, ctx, true, Collider(BulletTag, OwnerBulletKey("XBob"))) == Outcome(s, [])
  {
  }

  /** A player's own projectiles, named by its key, never hurt it. */
  lemma OwnShotHarmless(s: PlayerState, ctx: Context, input: InputSample)
    ensures EnterRule(s, ctx, true, Collider(BulletTag, Shot(ctx, input).colliderName.value)) == Outcome(s, [])
  {
  }

  /** Every primary shot an owner's Update logs is one its own trigger ignores on a later hit. */
  lemma UpdateShotsHarmless(s: PlayerState, ctx: Context, isMine: bool, connected: bool, now: real,
                            input: InputSample, base: nat, later: PlayerState, i: nat)
    requires i < |UpdateRule(s, ctx, isMine, connected, now, input, base).effects|
    requires IsShot(UpdateRule(s, ctx, isMine, connected, now, input, base).effects[i])
    ensures var e := UpdateRule(s, ctx, isMine, connected, now, input, base).effects[i];
      e.colliderName.Some? &&
      EnterRule(later, ctx, true, Collider(BulletTag, e.colliderName.value)) == Outcome(later, [])
  {
    UpdateShotIsCmdShoot(s, ctx, isMine, connected, now, input, base);
    OwnShotHarmless(later, ctx, input);
  }

  /** One stay event: its time and the collider. */
  datatype StayEvent = StayEvent(now: real, obj: Collider)

  function ApplyStays(s: PlayerState, ctx: Context, events: seq<StayEvent>): PlayerState
    decreases |events|
  {
    if events == [] then s
    else ApplyStays(StayRule(s, ctx, events[0].now, events[0].obj), ctx, events[1..])
  }

  /** Stay events no later than the timer change nothing, whatever their colliders. */
  lemma {:induction false} StaysBeforeTimerIgnored(s: PlayerState, ctx: Context, events: seq<StayEvent>)
    requires forall i :: 0 <= i < |events| ==> events[i].now <= s.nextContinuesDamageTime
    ensures ApplyStays(s, ctx, events) == s
    decreases |events|
  {
    if events != [] {
      StaysBeforeTimerIgnored(s, ctx, events[1..]);
    }
  }

  /**
   * The timer is shared by every stay source: within one interval after the
   * first stay that acts, only that first one costs health, whatever overlaps.
   */
  lemma StaysActOncePerInterval(s: PlayerState, ctx: Context, events: seq<StayEvent>)
    requires |events| > 0 && events[0].now > s.nextContinuesDamageTime
    requires forall i :: 0 <= i < |events| ==> events[i].now <= events[0].now + ctx.timeBetweenShots
    ensures ApplyStays(s, ctx, events) == StayRule(s, ctx, events[0].now, events[0].obj)
  {
    var s1 := StayRule(s, ctx, events[0].now, events[0].obj);
    assert forall i :: 0 <= i < |events[1..]| ==> events[1..][i].now <= s1.nextContinuesDamageTime by {
      forall i | 0 <= i < |events[1..]| ensures events[1..][i].now <= s1.nextContinuesDamageTime {
        assert events[1..][i] == events[i + 1];
      }
    }
    StaysBeforeTimerIgnored(s1, ctx, events[1..]);
  }

  /** Any event a PlayerManager handles. */
  datatype PlayerEvent =
    | Tick(now: real, input: InputSample, connected: bool)
    | Enter(obj: Collider)
    | Stay(now: real, obj: Collider)
    | Receive(stream: seq<StreamValue>)

  /** One event applied to an outcome; `isMine` is the view's ownership, fixed for the run. */
  function Step(o: Outcome, ctx: Context, isMine: bool, e: PlayerEvent): Outcome
  {
    match e
    case Tick(now, input, connected) =>
      var r := UpdateRule(o.state, ctx, isMine, connected, now, input, |o.effects|);
      Outcome(r.state, o.effects + r.effects)
    case Enter(obj) =>
      var r := EnterRule(o.state, ctx, isMine, obj);
      Outcome(r.state, o.effects + r.effects)
    case Stay(now, obj) => Outcome(StayRule(o.state, ctx, now, obj), o.effects)
    case Receive(stream) => Outcome(ReadPlayerView(o.state, stream).state, o.effects)
  }

  function Run(o: Outcome, ctx: Context, isMine: bool, events: seq<PlayerEvent>): Outcome
    decreases |events|
  {
    if events == [] then o else Run(Step(o, ctx, isMine, events[0]), ctx, isMine, events[1..])
  }

  /** Over any run of any events, damage taken never decreases and the log only grows. */
  lemma {:induction false} DamageTakenMonotone(o: Outcome, ctx: Context, isMine: bool, events: seq<PlayerEvent>)
    ensures Run(o, ctx, isMine, events).state.damageTaken >= o.state.damageTaken
    ensures |Run(o, ctx, isMine, events).effects| >= |o.effects|
    ensures Run(o, ctx, isMine, events).effects[..|o.effects|] == o.effects
    decreases |events|
  {
    if events != [] {
      var o1 := Step(o, ctx, isMine, events[0]);
      DamageTakenMonotone(o1, ctx, isMine, events[1..]);
      assert o1.effects[..|o.effects|] == o.effects;
    }
  }

  predicate IsStayOrReceive(e: PlayerEvent)
  {
    e.Stay? || e.Receive?
  }

  /**
   * On a connected observer, input and enter events change nothing and log
   * nothing; only stay events and snapshots can move its mirror.
   */
  lemma {:induction false} ObserverIgnoresTicksAndEnters(o: Outcome, ctx: Context, events: seq<PlayerEvent>)
    requires forall i :: 0 <= i < |events| ==> !IsStayOrReceive(events[i]) && (events[i].Tick? ==> events[i].connected)
    ensures Run(o, ctx, false, events) == o
    decreases |events|
  {
    if events != [] {
      assert Step(o, ctx, false, events[0]) == o by {
        assert o.effects + [] == o.effects;
      }
      ObserverIgnoresTicksAndEnters(o, ctx, events[1..]);
    }
  }

  /** Stay damage has no ownership test: an observer's mirror loses health to a foreign field. */
  lemma ObserverStillTakesFieldDamage(o: Outcome, ctx: Context, now: real, c: Collider)
    requires now > o.state.nextContinuesDamageTime && c.tag == ElectricFieldTag && Foreign(c, ctx)
    ensures Run(o, ctx, false, [Stay(now, c)]).state.health == o.state.health - FieldStayDamage
  {
  }
}
