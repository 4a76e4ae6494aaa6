/**
 * The engine and network collaborators the two behaviours talk to, as values:
 * the colliders that overlap events deliver, the effects the behaviours ask
 * the engine and the Photon runtime to carry out (recorded in an append-only
 * log instead of being carried out), the items of a Photon serialisation
 * stream, and the ordinal substring test of .NET's String.Contains.
 */
module Engine {

  datatype Option<T> = None | Some(value: T)

  /** What an overlap callback sees of the other object: its tag and its name. */
  datatype Collider = Collider(tag: string, name: string)

  /** The object an effect acts on. */
  datatype Target =
    | ThisObject              // the behaviour's own GameObject and its PhotonView
    | HitObject(c: Collider)  // the GameObject (and PhotonView) of the collider that overlapped
    | HitCollider(c: Collider) // only the Collider2D component of that object

  /** How a spawned body is rotated. */
  datatype Heading =
    | Unrotated                              // Quaternion.identity, rotation never set
    | AimedBy(horizontal: real, vertical: real) // atan2 of the aim input in degrees, minus 90 (not computed)
    | Degrees(deg: real)                     // body.rotation set to exactly this many degrees

  datatype RpcTargets = All | AllBuffered

  datatype RpcArg =
    | ConstantArg(name: string) // a named game constant whose value is not part of this model
    | Spawned(index: nat)       // the object created by effect number `index` of the same log

  datatype Effect =
    | Spawn(prefab: string, heading: Heading, colliderName: Option<string>) // PhotonNetwork.Instantiate
    | NetDestroy(target: Target)    // PhotonNetwork.Destroy of the target's PhotonView
    | LocalDestroy(target: Target)  // Unity's Object.Destroy
    | Rpc(name: string, targets: RpcTargets, on: Target, args: seq<RpcArg>) // PhotonView.RPC
    | LeaveRoom                     // GameManager.Instance.LeaveRoom()

  /** One item of a PhotonStream: the behaviours here only send booleans and floats. */
  datatype StreamValue = BoolValue(b: bool) | FloatValue(f: real)

  /** `sub` occurs in `s` starting at position `i`. */
  predicate OccursAt(s: string, sub: string, i: nat)
  {
    i + |sub| <= |s| && s[i..i + |sub|] == sub
  }

  /** Ordinal String.Contains: true exactly when `sub` occurs somewhere in `s`. */
  function Contains(s: string, sub: string): (r: bool)
    ensures r <==> exists i: nat :: OccursAt(s, sub, i)
    decreases |s|
  {
    if |sub| > |s| then
      assert forall i: nat :: !OccursAt(s, sub, i);
      false
    else if s[..|sub|] == sub then
      assert OccursAt(s, sub, 0);
      true
    else
      var r := Contains(s[1..], sub);
      assert r ==> exists i: nat :: OccursAt(s, sub, i) by {
        if r {
          var j: nat :| OccursAt(s[1..], sub, j);
          assert s[1..][j..j + |sub|] == s[j + 1..j + 1 + |sub|];
          assert OccursAt(s, sub, j + 1);
        }
      }
      assert (exists i: nat :: OccursAt(s, sub, i)) ==> r by {
        if exists i: nat :: OccursAt(s, sub, i) {
          var i: nat :| OccursAt(s, sub, i);
          assert i != 0;
          assert s[1..][i - 1..i - 1 + |sub|] == s[i..i + |sub|];
          assert OccursAt(s[1..], sub, i - 1);
        }
      }
      r
  }

  lemma AppendAssociates(a: seq<Effect>, b: seq<Effect>, c: seq<Effect>, d: seq<Effect>)
    ensures a + b + c + d == a + (b + c + d)
  {
  }

  /** The number of network destroys a log asks for on `t`. */
  function NetDestroys(log: seq<Effect>, t: Target): nat
  {
    if log == [] then 0
    else NetDestroys(log[..|log| - 1], t) + (if log[|log| - 1] == NetDestroy(t) then 1 else 0)
  }

  lemma {:induction false} NetDestroysAppend(a: seq<Effect>, b: seq<Effect>, t: Target)
    ensures NetDestroys(a + b, t) == NetDestroys(a, t) + NetDestroys(b, t)
    decreases |b|
  {
    if b == [] {
      assert a + b == a;
    } else {
      assert (a + b)[..|a + b| - 1] == a + b[..|b| - 1];
      NetDestroysAppend(a, b[..|b| - 1], t);
    }
  }
}
