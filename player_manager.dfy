/**
 * PlayerManager as a class whose handlers update its fields in place and
 * append what they ask of the engine to an effect log. Each handler is
 * proved to follow its rule in module PlayerRules. Ownership, connection,
 * the clock and the input samples are parameters of the handlers.
 */
module Players {
  import opened Engine
  import opened PlayerRules

  /**
   * The process-wide statics of PlayerManager: the element type GameManager
   * chose, the weapon prefab Awake derived from it, and the local player.
   */
  class Session {
    var LocalPlayerType: string
    var LocalWeaponPrefab: string
    var LocalPlayerInstance: PlayerManager?

    /** `localWeaponPrefabName` before any Awake has run is null, written "" here. */
    constructor (localPlayerType: string)
      ensures LocalPlayerType == localPlayerType
      ensures LocalWeaponPrefab == "" && LocalPlayerInstance == null
    {
      LocalPlayerType := localPlayerType;
      LocalWeaponPrefab := "";
      LocalPlayerInstance := null;
    }
  }

  class PlayerManager {
    var Health: real
    var DamageDealt: real
    var DamageTaken: real
    var IsFiring: bool
    var UsingUltra: bool
    var timeBetweenShots: real
    var nextShotTime: real
    var nextContinuesDamageTime: real
    var myBulletKeyName: string
    const session: Session
    /** Everything asked of the engine so far, oldest first. */
    var effects: seq<Effect>

    /** The field initialisers. */
    constructor (session: Session)
      ensures this.session == session
      ensures Health == MaxHealth && DamageDealt == 0.0 && DamageTaken == 0.0
      ensures !IsFiring && !UsingUltra
      ensures timeBetweenShots == 1.0 && nextShotTime == 0.0 && nextContinuesDamageTime == 0.0
      ensures myBulletKeyName == DefaultBulletKey && effects == []
    {
      this.session := session;
      Health := MaxHealth;
      DamageDealt := 0.0;
      DamageTaken := 0.0;
      IsFiring := false;
      UsingUltra := false;
      timeBetweenShots := 1.0;
      nextShotTime := 0.0;
      nextContinuesDamageTime := 0.0;
      myBulletKeyName := DefaultBulletKey;
      effects := [];
    }

    /** The fields the handlers write, as a value. */
    function State(): PlayerState
      reads this
    {
      PlayerState(Health, DamageTaken, IsFiring, UsingUltra, nextShotTime, nextContinuesDamageTime)
    }

    /** What the handlers read and never write. */
    function Ctx(): Context
      reads this, session
    {
      Context(session.LocalPlayerType, session.LocalWeaponPrefab, myBulletKeyName, timeBetweenShots)
    }

    /**
     * Awake: on the owner, register as the local player, derive the bullet
     * key from the player's name and pick the weapon of the element type.
     */
    method Awake(isMine: bool, playerName: string)
      modifies this`myBulletKeyName, session
      ensures isMine ==>
        session.LocalPlayerInstance == this &&
        myBulletKeyName == OwnerBulletKey(playerName) &&
        session.LocalWeaponPrefab == WeaponPrefab(session.LocalPlayerType)
      ensures !isMine ==> myBulletKeyName == old(myBulletKeyName) && unchanged(session)
      ensures session.LocalPlayerType == old(session.LocalPlayerType)
    {
      if isMine {
        session.LocalPlayerInstance := this;
        myBulletKeyName := playerName + BulletKeySuffix;
        var weapon;
        match session.LocalPlayerType {
          case "FireElement" => weapon := FireBallPrefab;
          case "ElectricElement" => weapon := ElectricArcPrefab;
          case "RancherElement" => weapon := RancherSwordPrefab;
          case "IceElement" => weapon := IceCrystalPrefab;
          case "StoneElement" => weapon := StoneChargePrefab;
          case _ => weapon := FireBallPrefab;
        }
        session.LocalWeaponPrefab := weapon;
      }
    }

    /** Update, once per frame. */
    method Update(isMine: bool, connected: bool, now: real, input: InputSample)
      modifies this`IsFiring, this`UsingUltra, this`nextShotTime, this`effects
      ensures var o := UpdateRule(old(State()), Ctx(), isMine, connected, now, input, |old(effects)|);
        State() == o.state && effects == old(effects) + o.effects
    {
      if !isMine && connected {
        return;
      }
      ghost var s0, e0, ctx := State(), effects, Ctx();
      if Health <= 0.0 {
        effects := effects + [LeaveRoom];
      }
      ghost var e1 := effects;
      ProcessInputs(input);
      if IsFiring {
        if nextShotTime <= now {
          CmdShoot(input);
          nextShotTime := now + timeBetweenShots;
        }
      }
      ghost var e2 := effects;
      assert State() == TickState(s0, ctx, now, input);
      if UsingUltra {
        UseUltra();
      }
      UpdateRuleSteps(s0, ctx, isMine, connected, now, input, e0, e1, e2, effects);
    }

    /** ProcessInputs: firing while the aim stick is held, ultra on the button's release. */
    method ProcessInputs(input: InputSample)
      modifies this`IsFiring, this`UsingUltra
      ensures IsFiring == Firing(input) && UsingUltra == input.ultraReleased
    {
      if Firing(input) {
        IsFiring := true;
      } else {
        IsFiring := false;
      }
      if input.ultraReleased {
        UsingUltra := true;
      } else {
        UsingUltra := false;
      }
    }

    /** CmdShoot: one projectile of the local weapon, renamed to the bullet key. */
    method CmdShoot(input: InputSample)
      modifies this`effects
      ensures effects == old(effects) + [Shot(Ctx(), input)]
    {
      effects := effects + [Spawn(session.LocalWeaponPrefab, AimedBy(input.horizontal, input.vertical), Some(myBulletKeyName))];
    }

    /** UseUltra: dispatch on the static element type. */
    method UseUltra()
      modifies this`effects
      ensures effects == old(effects) + UltraEffects(Ctx(), |old(effects)|)
      // the parenting call names the field spawned just before it in the log
      ensures session.LocalPlayerType == ElectricElement ==>
        var call := effects[|effects| - 1];
        call.Rpc? && call.args[0].Spawned? && call.args[0].index < |effects| &&
        effects[call.args[0].index] == Spawn(ElectricFieldPrefab, Unrotated, None)
    {
      match session.LocalPlayerType {
        case "FireElement" =>
          var rotation := 0.0;
          ghost var k: nat := 0;
          while rotation < 360.0
            invariant k <= BurstSize && rotation == BurstStep * k as real
            invariant effects == old(effects) + FireBurst(session.LocalWeaponPrefab, myBulletKeyName, k)
            decreases BurstSize - k
          {
            effects := effects + [Spawn(session.LocalWeaponPrefab, Degrees(rotation), Some(myBulletKeyName))];
            rotation := rotation + 30.0;
            k := k + 1;
          }
        case "ElectricElement" =>
          var field := |effects|;
          effects := effects + [Spawn(ElectricFieldPrefab, Unrotated, None)];
          effects := effects + [Rpc(SetElectricFieldParentRpc, AllBuffered, ThisObject, [Spawned(field)])];
        case "RancherElement" =>
        case "IceElement" =>
        case "StoneElement" =>
        case _ =>
      }
    }

    /** OnTriggerEnter2D: the damage and pickup rules, on the owner only. */
    method OnTriggerEnter2D(isMine: bool, obj: Collider)
      modifies this`Health, this`DamageTaken, this`effects
      ensures var o := EnterRule(old(State()), Ctx(), isMine, obj);
        State() == o.state && effects == old(effects) + o.effects
    {
      if !isMine {
        return;
      }
      if obj.tag == BulletTag && !Contains(obj.name, myBulletKeyName) {
        effects := effects + [NetDestroy(HitObject(obj)), LocalDestroy(HitCollider(obj))];
        Health := Health - BulletDamage;
        DamageTaken := DamageTaken + BulletDamage;
      }
      if obj.tag == ObstacleTag {
        if UsingUltra && session.LocalPlayerType == ElectricElement {
          return;
        }
        Health := Health - ObstacleDamage;
        DamageTaken := DamageTaken + ObstacleDamage;
      }
      if obj.tag == HealthPackTag {
        effects := effects + [NetDestroy(HitObject(obj)), LocalDestroy(HitCollider(obj))];
        Health := Health + HealthPackHeal;
        if Health > MaxHealth {
          Health := MaxHealth;
        }
      }
      if obj.tag == ElectricFieldTag && !Contains(obj.name, myBulletKeyName) {
        Health := Health - FieldEnterDamage;
      }
    }

    /** OnTriggerStay2D: continuous field damage behind the shared timer. */
    method OnTriggerStay2D(now: real, obj: Collider)
      modifies this`Health, this`nextContinuesDamageTime
      ensures State() == StayRule(old(State()), Ctx(), now, obj)
    {
      if now > nextContinuesDamageTime {
        nextContinuesDamageTime := now + timeBetweenShots;
        if obj.tag == ElectricFieldTag && !Contains(obj.name, myBulletKeyName) {
          Health := Health - FieldStayDamage;
        }
      }
    }

    /** OnPhotonSerializeView while writing: append the three replicated fields. */
    method SerializeView(stream: seq<StreamValue>) returns (out: seq<StreamValue>)
      ensures out == stream + WritePlayerView(State())
      ensures ReadPlayerView(State(), out[|stream|..]).ok
    {
      out := stream + [BoolValue(IsFiring)];
      out := out + [FloatValue(Health)];
      out := out + [BoolValue(UsingUltra)];
      assert out[|stream|..] == WritePlayerView(State());
    }

    /** OnPhotonSerializeView while reading: overwrite the mirror field by field. */
    method DeserializeView(stream: seq<StreamValue>) returns (rest: seq<StreamValue>, ok: bool)
      modifies this`IsFiring, this`Health, this`UsingUltra
      ensures ReadOutcome(State(), rest, ok) == ReadPlayerView(old(State()), stream)
    {
      if |stream| == 0 || !stream[0].BoolValue? {
        return [], false;
      }
      IsFiring := stream[0].b;
      if |stream| < 2 || !stream[1].FloatValue? {
        return [], false;
      }
      Health := stream[1].f;
      if |stream| < 3 || !stream[2].BoolValue? {
        return [], false;
      }
      UsingUltra := stream[2].b;
      return stream[3..], true;
    }
  }
}
