/**
 * The puck of src/entites/puck.ts: a visual entity paired with a physics
 * body. Positions are abstracted to the two places the game code puts a
 * puck: the spawn pose in front of the player and the shot origin. The
 * body is moved otherwise only by the physics library, which is not
 * modelled, so `bodyPosition` changes only through the game's own code.
 */
module Pucks {
  import opened Materials
  import PhysWorld

  datatype Position = Spawn | ShotOrigin

  /** A puck's flags and its abstract transform and body. */
  datatype PuckState = PuckState(
    isFired: bool,
    isStarted: bool,
    /** transform scale is one (shown) rather than zero (hidden) */
    visible: bool,
    position: Position,
    bodyPosition: Position,
    /** velocity and angular velocity are zero */
    bodyAtRest: bool,
    /** the transform's parent is the player's puck holder (legacy controller only) */
    onPlayer: bool)

  /** `setFired(b)`: only the fired flag changes. */
  function WithFired(s: PuckState, b: bool): (r: PuckState)
    ensures r.isFired == b
    ensures r.(isFired := s.isFired) == s
  {
    s.(isFired := b)
  }

  /** `start()`: shown and started; the fired flag is kept. */
  function Started(s: PuckState): (r: PuckState)
    ensures r.isStarted && r.visible && r.isFired == s.isFired
    ensures r.(isStarted := s.isStarted, visible := s.visible) == s
  {
    s.(isStarted := true, visible := true)
  }

  /** `stop()`: hidden, neither started nor fired. */
  function Stopped(s: PuckState): (r: PuckState)
    ensures !r.isStarted && !r.isFired && !r.visible
    ensures r.(isStarted := s.isStarted, visible := s.visible, isFired := s.isFired) == s
  {
    s.(isStarted := false, visible := false, isFired := false)
  }

  /** `update()`: the body position is copied onto the transform only while fired. */
  function Synced(s: PuckState): (r: PuckState)
    ensures s.isFired ==> r.position == s.bodyPosition
    ensures !s.isFired ==> r == s
    ensures r.(position := s.position) == s
  {
    if s.isFired then s.(position := s.bodyPosition) else s
  }

  /** Syncing twice is syncing once. */
  lemma SyncedIdempotent(s: PuckState)
    ensures Synced(Synced(s)) == Synced(s)
  {
  }

  class Puck {
    const entity: nat
    var isFired: bool
    var isStarted: bool
    var visible: bool
    var position: Position
    var bodyPosition: Position
    var bodyAtRest: bool
    var onPlayer: bool

    function State(): PuckState
      reads this
    {
      PuckState(isFired, isStarted, visible, position, bodyPosition, bodyAtRest, onPlayer)
    }

    /** `new Puck({position: spawn, scale: one})` as the pool builds it: body
        at the spawn pose, neither fired nor started; the constructor
        re-creates the PUCK material, replacing the registry's entry. */
    constructor (entity: nat, world: PhysWorld.World)
      modifies world`materials
      ensures this.entity == entity
      ensures State() == PuckState(false, false, true, Spawn, Spawn, true, false)
      ensures PuckMaterial in world.materials && fresh(world.materials[PuckMaterial])
      ensures world.materials == old(world.materials)[PuckMaterial := world.materials[PuckMaterial]]
    {
      this.entity := entity;
      isFired := false;
      isStarted := false;
      visible := true;
      position := Spawn;
      bodyPosition := Spawn;
      bodyAtRest := true;
      onPlayer := false;
      new;
      var puckMaterial := world.CreateMaterial(PuckMaterial);
      SetFired(false);
    }

    /** The legacy controller's puck: spawn pose, scale zero, parented to the
        player's puck holder; that revision registers no material. */
    constructor Held(entity: nat)
      ensures this.entity == entity
      ensures State() == PuckState(false, false, false, Spawn, Spawn, true, true)
    {
      this.entity := entity;
      isFired := false;
      isStarted := false;
      visible := false;
      position := Spawn;
      bodyPosition := Spawn;
      bodyAtRest := true;
      onPlayer := true;
    }

    method SetFired(b: bool)
      modifies this`isFired
      ensures State() == WithFired(old(State()), b)
    {
      isFired := b;
    }

    method Start()
      modifies this`isStarted, this`visible
      ensures State() == Started(old(State()))
    {
      visible := true;
      isStarted := true;
    }

    method Stop()
      modifies this`isStarted, this`visible, this`isFired
      ensures State() == Stopped(old(State()))
    {
      visible := false;
      isStarted := false;
      SetFired(false);
    }

    method Update()
      modifies this`position
      ensures State() == Synced(old(State()))
    {
      if isFired {
        position := bodyPosition;
      }
    }
  }
}
