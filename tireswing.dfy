/**
 * The swing's controller and its passenger listener.
 *
 * The controller owns three models (the still part, the rope and the
 * rotating tire), validates that their displays are alive, spawns them with
 * the tire's displays hung on one primary display, and runs the per-tick
 * animation. The listener turns mount, dismount and quit events into the
 * controller's `hasPassenger` flag.
 *
 * The scheduler is not modelled: the timer callback is the method `Tick`,
 * the scheduled task is a `SwingTask` object with a `cancelled` flag, and
 * every angle handed to the rotation is appended to `rotations`.
 */
module TireSwing {
  import opened Host
  import opened Models
  import Animation

  /** InteractionEntity.java is not part of this model; these are the fields the controller reads. */
  datatype InteractionEntity = InteractionEntity(location: Location, height: real, width: real)

  datatype FulcrumEntity = FulcrumEntity(
    location: Location,
    blockData: BlockData,
    transformation: Transformation,
    radius: real)

  /** What the rotation is built from. Rotation.java itself is not part of this model. */
  datatype Rotation = Rotation(tireModel: Model, ropeModel: Model, itemDisplay: Display?, center: Location, radius: real)

  /** The angle `resetRotation` hands to `rotate`. */
  const ResetAngle: real := Animation.ToRadians(0.0)

  /** The chunk that holds a coordinate: its block (the floor) shifted right by 4. */
  function ChunkCoordinate(c: real): (r: int)
    ensures 16 * r <= c.Floor < 16 * r + 16
  {
    c.Floor / 16
  }

  /** The riders hung on the primary display: every tire display but the first. */
  function Children(entities: seq<ModelEntity>): set<Rider>
  {
    set k | 1 <= k < |entities| :: DisplayRider(entities[k].itemDisplay)
  }

  /** The display that becomes the primary one, if the model has any. */
  function FirstDisplay(m: Model): set<Display>
    reads m
  {
    if |m.modelEntities| > 0 then {m.modelEntities[0].itemDisplay} else {}
  }

  // ---------------------------------------------------------------------
  // The timer tick, on values
  // ---------------------------------------------------------------------

  /** What one tick did: the new swing state, the flag, the rotations, a cancel. */
  datatype TickResult = TickResult(swing: Animation.SwingState, swinging: bool, rotations: seq<real>, cancel: bool)

  /**
   * One tick of the animation task. With a dead or missing display it does
   * nothing at all (and does not cancel). Otherwise it updates the swing;
   * a swing that has come to rest is reset, stops swinging and cancels the
   * task; any other swing is slowed down when nobody rides it and is then
   * rotated to its angle.
   */
  function TickStep(valid: bool, s: Animation.SwingState, trig: Animation.Trig, hasPassenger: bool, swinging: bool): TickResult
  {
    if !valid then
      TickResult(s, swinging, [], false)
    else
      var updated := Animation.Advance(s, trig);
      if Animation.Still(updated) then
        TickResult(updated, false, [ResetAngle], true)
      else
        var driven := if hasPassenger then updated else Animation.SlowedDown(updated);
        TickResult(driven, swinging, [driven.pendulum.angle], false)
  }

  /** A failed validation leaves everything as it was, and the task keeps running. */
  lemma TickWithDeadDisplays(s: Animation.SwingState, trig: Animation.Trig, hasPassenger: bool, swinging: bool)
    ensures TickStep(false, s, trig, hasPassenger, swinging) == TickResult(s, swinging, [], false)
  {
  }

  /**
   * A tick whose update brings the swing to rest resets the rotation, clears
   * the swinging flag and cancels; it neither slows down nor rotates to the
   * swing's angle.
   */
  lemma TickThatSettles(s: Animation.SwingState, trig: Animation.Trig, hasPassenger: bool, swinging: bool)
    requires Animation.Still(Animation.Advance(s, trig))
    ensures var r := TickStep(true, s, trig, hasPassenger, swinging);
      r.cancel && !r.swinging && r.rotations == [0.0]
      && r.swing == Animation.Advance(s, trig) && r.swing.slowing == s.slowing
  {
  }

  /**
   * Any other valid tick keeps the task, slows the swing down exactly when
   * nobody rides it (and a slowing swing stays slowing), and rotates to the
   * angle the update produced, which lies within 135 degrees either way.
   */
  lemma TickInMotion(s: Animation.SwingState, trig: Animation.Trig, hasPassenger: bool, swinging: bool)
    requires !Animation.Still(Animation.Advance(s, trig))
    ensures var r := TickStep(true, s, trig, hasPassenger, swinging);
      !r.cancel && r.swinging == swinging
      && r.swing.slowing == (s.slowing || !hasPassenger)
      && r.rotations == [Animation.Advance(s, trig).pendulum.angle]
      && -Animation.MaxAngle <= r.rotations[0] <= Animation.MaxAngle
  {
    Animation.SlowdownKeepsMotion(Animation.Advance(s, trig));
  }

  /** What a tick sees: whether validation passes and whether a rider is on. */
  datatype Observation = Observation(valid: bool, hasPassenger: bool)

  /**
   * Ticks in a row, as the scheduler delivers them: after a cancelling tick
   * no further tick runs.
   */
  function TickRun(s: Animation.SwingState, trig: Animation.Trig, swinging: bool, views: seq<Observation>): TickResult
    decreases |views|
  {
    if views == [] then
      TickResult(s, swinging, [], false)
    else
      var first := TickStep(views[0].valid, s, trig, views[0].hasPassenger, swinging);
      if first.cancel then
        first
      else
        var rest := TickRun(first.swing, trig, first.swinging, views[1..]);
        TickResult(rest.swing, rest.swinging, first.rotations + rest.rotations, rest.cancel)
  }

  /** However many ticks run, every rotation stays within 135 degrees either way. */
  lemma {:induction false} RotationsStayInRange(s: Animation.SwingState, trig: Animation.Trig, swinging: bool, views: seq<Observation>)
    decreases |views|
    ensures forall k :: 0 <= k < |TickRun(s, trig, swinging, views).rotations| ==>
      -Animation.MaxAngle <= TickRun(s, trig, swinging, views).rotations[k] <= Animation.MaxAngle
  {
    if views != [] {
      var first := TickStep(views[0].valid, s, trig, views[0].hasPassenger, swinging);
      if !first.cancel {
        RotationsStayInRange(first.swing, trig, first.swinging, views[1..]);
      }
    }
  }

  /**
   * Ticks that all fail validation change nothing, rotate nothing and never
   * cancel the task: it goes on running.
   */
  lemma {:induction false} DeadTicksAreInert(s: Animation.SwingState, trig: Animation.Trig, swinging: bool, views: seq<Observation>)
    decreases |views|
    requires forall k :: 0 <= k < |views| ==> !views[k].valid
    ensures TickRun(s, trig, swinging, views) == TickResult(s, swinging, [], false)
  {
    if views != [] {
      DeadTicksAreInert(s, trig, swinging, views[1..]);
    }
  }

  /** A swing that has started slowing is still slowing after any ticks. */
  lemma {:induction false} SlowingSurvivesTicks(s: Animation.SwingState, trig: Animation.Trig, swinging: bool, views: seq<Observation>)
    decreases |views|
    requires s.slowing
    ensures TickRun(s, trig, swinging, views).swing.slowing
  {
    if views != [] {
      var first := TickStep(views[0].valid, s, trig, views[0].hasPassenger, swinging);
      if !first.cancel {
        SlowingSurvivesTicks(first.swing, trig, first.swinging, views[1..]);
      }
    }
  }

  /** During its first 29 updates a fresh swing is never cancelled. */
  lemma NoCancelWhileAccelerating(s: Animation.SwingState, trig: Animation.Trig, valid: bool, hasPassenger: bool, swinging: bool)
    requires s.time + 1 < Animation.AccelerationTime
    ensures !TickStep(valid, s, trig, hasPassenger, swinging).cancel
  {
    Animation.NotStillWhileAccelerating(Animation.Advance(s, trig));
  }

  // ---------------------------------------------------------------------
  // Controller
  // ---------------------------------------------------------------------

  /** The scheduled animation task and the swing its callback drives. */
  class SwingTask {
    const swing: Animation.Swing
    var cancelled: bool

    constructor (swing: Animation.Swing)
      ensures this.swing == swing && !cancelled
    {
      this.swing := swing;
      cancelled := false;
    }

    method Cancel()
      modifies this`cancelled
      ensures cancelled
    {
      cancelled := true;
    }
  }

  class Controller {
    const trig: Animation.Trig
    const location: Location
    const stillModel: Model
    const rotationalModel: Model
    const ropeModel: Model
    const chunkX: int
    const chunkZ: int
    var radius: real
    var interactionEntity: Option<InteractionEntity>
    var fulcrumEntity: Option<FulcrumEntity>
    var rotation: Option<Rotation>
    var interaction: Interaction?
    var itemDisplay: Display?
    var hasPassenger: bool
    var swinging: bool
    /** Every angle handed to the rotation so far, in order. */
    var rotations: seq<real>

    /** The three models are three different objects. */
    predicate Valid()
    {
      stillModel != rotationalModel && stillModel != ropeModel && rotationalModel != ropeModel
    }

    /** Every model has spawned entities and all their displays are alive. */
    predicate AllLive()
      reads ropeModel, rotationalModel, stillModel
      reads ropeModel.Displays(), rotationalModel.Displays(), stillModel.Displays()
    {
      ropeModel.Live() && rotationalModel.Live() && stillModel.Live()
    }

    predicate Cleared()
      reads ropeModel, rotationalModel, stillModel
    {
      ropeModel.modelEntities == [] && rotationalModel.modelEntities == [] && stillModel.modelEntities == []
    }

    constructor (stillModel: Model, rotationalModel: Model, ropeModel: Model, location: Location, trig: Animation.Trig)
      requires stillModel != rotationalModel && stillModel != ropeModel && rotationalModel != ropeModel
      ensures Valid()
      ensures this.stillModel == stillModel && this.rotationalModel == rotationalModel && this.ropeModel == ropeModel
      ensures this.location == location && this.trig == trig
      ensures chunkX == ChunkCoordinate(location.x) && chunkZ == ChunkCoordinate(location.z)
      ensures radius == 0.0 && interactionEntity == None && fulcrumEntity == None && rotation == None
      ensures interaction == null && itemDisplay == null
      ensures !hasPassenger && !swinging && rotations == []
    {
      this.trig := trig;
      this.stillModel := stillModel;
      this.ropeModel := ropeModel;
      this.rotationalModel := rotationalModel;
      this.location := location;
      chunkX := ChunkCoordinate(location.x);
      chunkZ := ChunkCoordinate(location.z);
      radius := 0.0;
      interactionEntity := None;
      fulcrumEntity := None;
      rotation := None;
      interaction := null;
      itemDisplay := null;
      hasPassenger := false;
      swinging := false;
      rotations := [];
    }

    /**
     * A chunk load respawns the swing when its displays are gone and the
     * chunk is the swing's; a respawn of models that have parts makes the
     * next validation pass.
     */
    method OnChunkLoad(x: int, z: int)
      requires Valid()
      requires !AllLive() && x == chunkX && z == chunkZ ==>
        interactionEntity.Some? && fulcrumEntity.Some?
        && (|rotationalModel.modelDataList| > 0 || itemDisplay != null)
      modifies this, stillModel`modelEntities, ropeModel`modelEntities, rotationalModel`modelEntities
      ensures old(AllLive()) ==> unchanged(this, stillModel, ropeModel, rotationalModel)
      ensures !old(AllLive()) && (x != chunkX || z != chunkZ) ==> unchanged(this) && Cleared()
      ensures !old(AllLive()) && x == chunkX && z == chunkZ ==>
        stillModel.Spawned(0, |stillModel.modelDataList|, location)
        && ropeModel.Spawned(0, |ropeModel.modelDataList|, location)
        && rotationalModel.Spawned(0, |rotationalModel.modelDataList|, location)
        && (stillModel.modelDataList != [] && ropeModel.modelDataList != [] && rotationalModel.modelDataList != []
            ==> AllLive())
        && interactionEntity == old(interactionEntity) && fulcrumEntity == old(fulcrumEntity)
        && fresh(interaction)
        && interaction.location == interactionEntity.value.location
        && interaction.height == interactionEntity.value.height
        && interaction.width == interactionEntity.value.width
        && radius == old(fulcrumEntity).value.radius
        && (rotationalModel.modelEntities == [] ==> itemDisplay == old(itemDisplay))
        && (rotationalModel.modelEntities != [] ==>
              itemDisplay == rotationalModel.modelEntities[0].itemDisplay
              && itemDisplay.passengers == Children(rotationalModel.modelEntities))
        && rotation == Some(Rotation(rotationalModel, ropeModel, itemDisplay, location, radius))
        && itemDisplay != null
        && rotations == old(rotations) + [ResetAngle]
        && hasPassenger == old(hasPassenger) && swinging == old(swinging)
    {
      var valid := Validate();
      if valid {
        return;
      }

      if chunkX == x && chunkZ == z {
        Spawn(interactionEntity.value, fulcrumEntity.value);
      }
    }

    /**
     * Each model's entity list keeps its old entries and then holds one
     * freshly spawned display per part description, at the swing's location.
     */
    twostate predicate ModelsSpawned()
      reads stillModel, ropeModel, rotationalModel
    {
      stillModel.Spawned(|old(stillModel.modelEntities)|, |stillModel.modelDataList|, location)
      && stillModel.modelEntities[..|old(stillModel.modelEntities)|] == old(stillModel.modelEntities)
      && ropeModel.Spawned(|old(ropeModel.modelEntities)|, |ropeModel.modelDataList|, location)
      && ropeModel.modelEntities[..|old(ropeModel.modelEntities)|] == old(ropeModel.modelEntities)
      && rotationalModel.Spawned(|old(rotationalModel.modelEntities)|, |rotationalModel.modelDataList|, location)
      && rotationalModel.modelEntities[..|old(rotationalModel.modelEntities)|] == old(rotationalModel.modelEntities)
    }

    /** Every display spawned past the given positions is alive. */
    predicate LiveSince(stillStart: nat, ropeStart: nat, tireStart: nat)
      reads stillModel, ropeModel, rotationalModel
      reads stillModel.Displays(), ropeModel.Displays(), rotationalModel.Displays()
    {
      stillModel.LiveFrom(stillStart) && ropeModel.LiveFrom(ropeStart) && rotationalModel.LiveFrom(tireStart)
    }

    /**
     * Spawns the interaction, records the fulcrum's radius, spawns the still,
     * rope and tire models, makes the first tire display the primary one
     * with every other tire display riding it, and resets the rotation.
     */
    method Spawn(interactionEntity: InteractionEntity, fulcrumEntity: FulcrumEntity)
      requires Valid()
      requires |rotationalModel.modelDataList| > 0 || itemDisplay != null
      modifies this, stillModel`modelEntities, ropeModel`modelEntities, rotationalModel`modelEntities
      modifies FirstDisplay(rotationalModel)`passengers
      ensures this.interactionEntity == Some(interactionEntity) && this.fulcrumEntity == Some(fulcrumEntity)
      ensures fresh(interaction) && interaction.location == interactionEntity.location
      ensures interaction.height == interactionEntity.height && interaction.width == interactionEntity.width
      ensures radius == fulcrumEntity.radius
      ensures ModelsSpawned()
      ensures LiveSince(|old(stillModel.modelEntities)|, |old(ropeModel.modelEntities)|, |old(rotationalModel.modelEntities)|)
      ensures rotationalModel.modelEntities == [] ==> itemDisplay == old(itemDisplay)
      ensures itemDisplay != null
      ensures rotationalModel.modelEntities != [] ==>
        itemDisplay == rotationalModel.modelEntities[0].itemDisplay
        && itemDisplay.passengers ==
             (if old(rotationalModel.modelEntities) == [] then {}
              else old(rotationalModel.modelEntities[0].itemDisplay.passengers))
             + Children(rotationalModel.modelEntities)
      ensures rotation == Some(Rotation(rotationalModel, ropeModel, itemDisplay, location, radius))
      ensures rotations == old(rotations) + [ResetAngle]
      ensures hasPassenger == old(hasPassenger) && swinging == old(swinging)
    {
      ghost var stillStart, ropeStart, tireStart := |stillModel.modelEntities|, |ropeModel.modelEntities|, |rotationalModel.modelEntities|;
      SpawnEntities(interactionEntity, fulcrumEntity);

      var entities := rotationalModel.GetModelEntities();
      if |entities| > 0 {
        AttachTire(stillStart, ropeStart, tireStart);
      }

      StartRotation();
    }

    /** The part of spawning that creates entities: interaction, fulcrum and the three models. */
    method SpawnEntities(interactionEntity: InteractionEntity, fulcrumEntity: FulcrumEntity)
      requires Valid()
      modifies this`interactionEntity, this`fulcrumEntity, this`interaction, this`radius
      modifies stillModel`modelEntities, ropeModel`modelEntities, rotationalModel`modelEntities
      ensures this.interactionEntity == Some(interactionEntity) && this.fulcrumEntity == Some(fulcrumEntity)
      ensures fresh(interaction) && interaction.location == interactionEntity.location
      ensures interaction.height == interactionEntity.height && interaction.width == interactionEntity.width
      ensures radius == fulcrumEntity.radius
      ensures ModelsSpawned()
      ensures LiveSince(|old(stillModel.modelEntities)|, |old(ropeModel.modelEntities)|, |old(rotationalModel.modelEntities)|)
      ensures old(rotationalModel.modelEntities) == [] && rotationalModel.modelEntities != [] ==>
        fresh(rotationalModel.modelEntities[0].itemDisplay)
        && rotationalModel.modelEntities[0].itemDisplay.passengers == {}
    {
      this.interactionEntity := Some(interactionEntity);
      this.fulcrumEntity := Some(fulcrumEntity);

      CreateInteraction(interactionEntity);
      CreateFulcrum(fulcrumEntity);

      label beforeModels:
      SpawnModels();
      assert forall k :: |old(stillModel.modelEntities)| <= k < |stillModel.modelEntities| ==>
        fresh(stillModel.modelEntities[k].itemDisplay);
      assert forall k :: |old(ropeModel.modelEntities)| <= k < |ropeModel.modelEntities| ==>
        fresh(ropeModel.modelEntities[k].itemDisplay);
      assert forall k :: |old(rotationalModel.modelEntities)| <= k < |rotationalModel.modelEntities| ==>
        fresh(rotationalModel.modelEntities[k].itemDisplay);
    }

    /**
     * Makes the first tire display the primary one and hangs every other tire
     * display on it; only the primary display's passengers change, so every
     * display keeps its liveness.
     */
    method AttachTire(ghost stillStart: nat, ghost ropeStart: nat, ghost tireStart: nat)
      requires |rotationalModel.modelEntities| > 0
      modifies this`itemDisplay, rotationalModel.modelEntities[0].itemDisplay`passengers
      ensures itemDisplay == rotationalModel.modelEntities[0].itemDisplay
      ensures itemDisplay.passengers ==
        old(rotationalModel.modelEntities[0].itemDisplay.passengers) + Children(rotationalModel.modelEntities)
      ensures old(LiveSince(stillStart, ropeStart, tireStart)) ==> LiveSince(stillStart, ropeStart, tireStart)
    {
      var entities := rotationalModel.GetModelEntities();
      itemDisplay := entities[0].itemDisplay;
      HangChildren(entities);
      assert forall k :: 0 <= k < |stillModel.modelEntities| ==>
        stillModel.modelEntities[k].itemDisplay.valid == old(stillModel.modelEntities[k].itemDisplay.valid);
      assert forall k :: 0 <= k < |ropeModel.modelEntities| ==>
        ropeModel.modelEntities[k].itemDisplay.valid == old(ropeModel.modelEntities[k].itemDisplay.valid);
      assert forall k :: 0 <= k < |rotationalModel.modelEntities| ==>
        rotationalModel.modelEntities[k].itemDisplay.valid == old(rotationalModel.modelEntities[k].itemDisplay.valid);
    }

    /** Builds the rotation over the tire, the rope and the primary display, and resets it. */
    method StartRotation()
      requires itemDisplay != null
      modifies this`rotation, this`rotations
      ensures rotation == Some(Rotation(rotationalModel, ropeModel, itemDisplay, location, radius))
      ensures rotations == old(rotations) + [ResetAngle]
    {
      rotation := Some(Rotation(rotationalModel, ropeModel, itemDisplay, location, radius));
      ResetRotation();
    }

    method CreateInteraction(entity: InteractionEntity)
      modifies this`interaction
      ensures fresh(interaction) && interaction.location == entity.location
      ensures interaction.height == entity.height && interaction.width == entity.width
    {
      interaction := new Interaction(entity.location, entity.height, entity.width);
    }

    /** The fulcrum's block display is spawned and never referred to again; only its radius is kept. */
    method CreateFulcrum(entity: FulcrumEntity)
      modifies this`radius
      ensures radius == entity.radius
    {
      radius := entity.radius;
    }

    /** Spawns the still, rope and tire models at the swing's location, in that order. */
    method SpawnModels()
      requires Valid()
      modifies stillModel`modelEntities, ropeModel`modelEntities, rotationalModel`modelEntities
      ensures ModelsSpawned()
      ensures LiveSince(|old(stillModel.modelEntities)|, |old(ropeModel.modelEntities)|, |old(rotationalModel.modelEntities)|)
      ensures old(rotationalModel.modelEntities) == [] && rotationalModel.modelEntities != [] ==>
        fresh(rotationalModel.modelEntities[0].itemDisplay)
        && rotationalModel.modelEntities[0].itemDisplay.passengers == {}
    {
      stillModel.Spawn(location);
      label afterStill:
      ropeModel.Spawn(location);
      assert forall k :: |old(ropeModel.modelEntities)| <= k < |ropeModel.modelEntities| ==> fresh(ropeModel.modelEntities[k].itemDisplay);
      assert ropeModel.Spawned(|old(ropeModel.modelEntities)|, |ropeModel.modelDataList|, location);
      label afterRope:
      rotationalModel.Spawn(location);
      assert forall k :: |old(rotationalModel.modelEntities)| <= k < |rotationalModel.modelEntities| ==> fresh(rotationalModel.modelEntities[k].itemDisplay);
      if old(rotationalModel.modelEntities) == [] && rotationalModel.modelEntities != [] {
        assert fresh@afterRope(rotationalModel.modelEntities[0].itemDisplay);
      }
    }

    /** Hangs every tire display but the first on the first one. */
    method HangChildren(entities: seq<ModelEntity>)
      requires |entities| > 0
      modifies entities[0].itemDisplay`passengers
      ensures entities[0].itemDisplay.passengers == old(entities[0].itemDisplay.passengers) + Children(entities)
    {
      var primary := entities[0].itemDisplay;
      var k := 1;
      while k < |entities|
        invariant 1 <= k <= |entities|
        invariant primary.passengers == old(primary.passengers) + Children(entities[..k])
      {
        assert Children(entities[..k + 1]) == Children(entities[..k]) + {DisplayRider(entities[k].itemDisplay)};
        primary.AddPassenger(DisplayRider(entities[k].itemDisplay));
        k := k + 1;
      }
      assert entities[..k] == entities;
    }


    /** Starts the animation with a player on the primary display. */
    method Swing(player: Player) returns (task: SwingTask)
      requires itemDisplay != null
      modifies this`swinging, itemDisplay`passengers
      ensures swinging
      ensures itemDisplay.passengers == old(itemDisplay.passengers) + {PlayerRider(player)}
      ensures fresh(task) && fresh(task.swing) && fresh(task.swing.pendulum)
      ensures task.swing.State() == Animation.FreshSwing && task.swing.pendulum.trig == trig
      ensures !task.cancelled
    {
      var swing := new Animation.Swing(trig);
      itemDisplay.AddPassenger(PlayerRider(player));
      swinging := true;
      task := new SwingTask(swing);
    }

    /** The body of the scheduled animation task, run once per tick. */
    method Tick(task: SwingTask)
      requires AllLive() ==> rotation.Some? && rotation.value.itemDisplay != null
      modifies this`swinging, this`rotations, task`cancelled, task.swing, task.swing.pendulum
      modifies stillModel`modelEntities, ropeModel`modelEntities, rotationalModel`modelEntities
      ensures var r := TickStep(old(AllLive()), old(task.swing.State()), task.swing.pendulum.trig, hasPassenger, old(swinging));
        task.swing.State() == r.swing
        && swinging == r.swinging
        && rotations == old(rotations) + r.rotations
        && task.cancelled == (old(task.cancelled) || r.cancel)
      ensures old(AllLive()) ==> unchanged(stillModel, ropeModel, rotationalModel)
      ensures !old(AllLive()) ==> Cleared()
    {
      var valid := Validate();
      if !valid {
        return;
      }
      task.swing.Update();
      var still := task.swing.IsStill();
      if still {
        ResetRotation();
        swinging := false;
        task.Cancel();
        return;
      }
      if !hasPassenger {
        task.swing.Slowdown();
      }
      var angle := task.swing.GetAngle();
      Rotate(angle);
    }

    /**
     * Hands an angle to the rotation (abstract: only the angle is recorded).
     * Rotating moves the rotation's primary display, so there must be one.
     */
    method Rotate(radian: real)
      requires rotation.Some? && rotation.value.itemDisplay != null
      modifies this`rotations
      ensures rotations == old(rotations) + [radian]
    {
      rotations := rotations + [radian];
    }

    method ResetRotation()
      requires rotation.Some? && rotation.value.itemDisplay != null
      modifies this`rotations
      ensures rotations == old(rotations) + [ResetAngle]
    {
      Rotate(ResetAngle);
    }

    /**
     * Checks the rope, tire and still models in that order; an empty model or
     * a dead display clears all three and fails.
     */
    method Validate() returns (valid: bool)
      modifies stillModel`modelEntities, ropeModel`modelEntities, rotationalModel`modelEntities
      ensures valid == old(AllLive())
      ensures valid ==> unchanged(stillModel, ropeModel, rotationalModel)
      ensures !valid ==> Cleared()
    {
      var models := [ropeModel, rotationalModel, stillModel];
      var i := 0;
      while i < |models|
        invariant 0 <= i <= |models|
        invariant unchanged(stillModel, ropeModel, rotationalModel)
        invariant forall j :: 0 <= j < i ==> models[j].Live()
      {
        var entities := models[i].GetModelEntities();
        if |entities| == 0 {
          assert !AllLive();
          Clear();
          return false;
        }
        var k := 0;
        while k < |entities|
          invariant 0 <= k <= |entities|
          invariant unchanged(stillModel, ropeModel, rotationalModel)
          invariant forall j :: 0 <= j < k ==> entities[j].itemDisplay.valid
        {
          var alive := entities[k].itemDisplay.IsValid();
          if !alive {
            assert !models[i].Live();
            assert !AllLive();
            Clear();
            return false;
          }
          k := k + 1;
        }
        assert models[i].Live();
        i := i + 1;
      }
      assert models[0].Live() && models[1].Live() && models[2].Live();
      valid := true;
    }

    method Clear()
      modifies stillModel`modelEntities, ropeModel`modelEntities, rotationalModel`modelEntities
      ensures Cleared()
    {
      stillModel.Clear();
      ropeModel.Clear();
      rotationalModel.Clear();
    }

    method SetHasPassenger(hasPassenger: bool)
      modifies this`hasPassenger
      ensures this.hasPassenger == hasPassenger
    {
      this.hasPassenger := hasPassenger;
    }

    method HasPassenger() returns (b: bool)
      ensures b == hasPassenger
    {
      b := hasPassenger;
    }

    method IsSwinging() returns (b: bool)
      ensures b == swinging
    {
      b := swinging;
    }
  }

  // ---------------------------------------------------------------------
  // Passenger events, on values
  // ---------------------------------------------------------------------

  /** The listener's view: the controller's two flags and the recorded rider. */
  datatype Session = Session(hasPassenger: bool, swinging: bool, passenger: Option<Player>)

  /** The entity in a dismount event: a player or anything else. */
  datatype Dismounting = DismountingPlayer(player: Player) | DismountingOther

  /** A rider flag is only ever set together with a recorded rider. */
  predicate Consistent(s: Session)
  {
    s.hasPassenger ==> s.passenger.Some?
  }

  /** A click on the swing's hit box mounts the player when nobody rides and the swing is idle. */
  function AfterInteract(s: Session, clickedInteraction: bool, player: Player): Session
  {
    if !s.hasPassenger && clickedInteraction && !s.swinging then
      Session(true, true, Some(player))
    else
      s
  }

  /** Only the recorded rider, dismounting as a player, clears the rider flag. */
  function AfterDismount(s: Session, entity: Dismounting): Session
    requires Consistent(s)
  {
    if !s.hasPassenger then s
    else match entity
      case DismountingOther => s
      case DismountingPlayer(player) =>
        if player.uuid == s.passenger.value.uuid then s.(hasPassenger := false) else s
  }

  /** Only the recorded rider quitting clears the rider flag. */
  function AfterQuit(s: Session, player: Player): Session
    requires Consistent(s)
  {
    if s.hasPassenger && player.uuid == s.passenger.value.uuid then s.(hasPassenger := false) else s
  }

  /**
   * An interaction starts a ride exactly when nobody rides, the hit box was
   * clicked and the swing is idle; it then records that player.
   */
  lemma InteractStartsRide(s: Session, clickedInteraction: bool, player: Player)
    ensures var r := AfterInteract(s, clickedInteraction, player);
      (r != s) <==> (!s.hasPassenger && clickedInteraction && !s.swinging)
    ensures var r := AfterInteract(s, clickedInteraction, player);
      r != s ==> r.hasPassenger && r.swinging && r.passenger == Some(player)
  {
  }

  /**
   * A dismount changes something exactly when a rider is recorded and the
   * dismounting entity is a player with that rider's id; it then only clears
   * the rider flag.
   */
  lemma DismountOnlyByRider(s: Session, entity: Dismounting)
    requires Consistent(s)
    ensures var r := AfterDismount(s, entity);
      (r != s) <==> (s.hasPassenger && entity.DismountingPlayer? && entity.player.uuid == s.passenger.value.uuid)
    ensures var r := AfterDismount(s, entity);
      r != s ==> r == s.(hasPassenger := false)
  {
  }

  lemma QuitOnlyByRider(s: Session, player: Player)
    requires Consistent(s)
    ensures var r := AfterQuit(s, player);
      (r != s) <==> (s.hasPassenger && player.uuid == s.passenger.value.uuid)
    ensures var r := AfterQuit(s, player);
      r != s ==> r == s.(hasPassenger := false)
  {
  }

  /** Everything that writes the two flags: the three events and a settling tick. */
  datatype Event =
    | Interact(clickedInteraction: bool, player: Player)
    | Dismount(entity: Dismounting)
    | Quit(player: Player)
    | Settle

  function Apply(s: Session, e: Event): Session
    requires Consistent(s)
  {
    match e
    case Interact(c, p) => AfterInteract(s, c, p)
    case Dismount(entity) => AfterDismount(s, entity)
    case Quit(p) => AfterQuit(s, p)
    case Settle => s.(swinging := false)
  }

  lemma ApplyKeepsConsistent(s: Session, e: Event)
    requires Consistent(s)
    ensures Consistent(Apply(s, e))
  {
  }

  function Replay(s: Session, events: seq<Event>): (r: Session)
    requires Consistent(s)
    ensures Consistent(r)
    decreases |events|
  {
    if events == [] then s
    else
      ApplyKeepsConsistent(s, events[0]);
      Replay(Apply(s, events[0]), events[1..])
  }

  /**
   * Over any sequence of events, the recorded rider is either the original
   * one or the player of some click event in the sequence: no other event
   * records a rider.
   */
  lemma {:induction false} RiderComesFromInteract(s: Session, events: seq<Event>)
    requires Consistent(s)
    decreases |events|
    ensures Replay(s, events).passenger == s.passenger
      || exists k :: 0 <= k < |events| && events[k].Interact? && Replay(s, events).passenger == Some(events[k].player)
  {
    if events != [] {
      var next := Apply(s, events[0]);
      RiderComesFromInteract(next, events[1..]);
      var r := Replay(s, events);
      assert r == Replay(next, events[1..]);
      if r.passenger != s.passenger {
        if r.passenger == next.passenger {
          assert events[0].Interact? && r.passenger == Some(events[0].player);
        } else {
          var k :| 0 <= k < |events[1..]| && events[1..][k].Interact? && r.passenger == Some(events[1..][k].player);
          assert events[k + 1] == events[1..][k];
        }
      }
    }
  }

  /** A rider who gets off leaves the swing running, and its next moving tick slows it down. */
  lemma DismountThenTickSlowsDown(s: Session, player: Player, swing: Animation.SwingState, trig: Animation.Trig)
    requires !s.hasPassenger && !s.swinging
    requires !Animation.Still(Animation.Advance(swing, trig))
    ensures var ridden := AfterInteract(s, true, player);
      var left := AfterDismount(ridden, DismountingPlayer(player));
      !left.hasPassenger && left.swinging
      && TickStep(true, swing, trig, left.hasPassenger, left.swinging).swing.slowing
  {
  }

  // ---------------------------------------------------------------------
  // Passenger listener
  // ---------------------------------------------------------------------

  class Passenger {
    const controller: Controller
    var passenger: Option<Player>

    function CurrentSession(): Session
      reads this, controller
    {
      Session(controller.hasPassenger, controller.swinging, passenger)
    }

    /** A rider is recorded and sits on a display whenever the flag is set. */
    predicate Valid()
      reads this, controller
    {
      Consistent(CurrentSession()) && (controller.hasPassenger ==> controller.itemDisplay != null)
    }

    constructor (controller: Controller)
      ensures this.controller == controller && passenger == None
      ensures !controller.hasPassenger ==> Valid()
    {
      this.controller := controller;
      passenger := None;
    }

    method OnEntityDismount(entity: Dismounting)
      requires Valid()
      modifies controller`hasPassenger
      ensures Valid()
      ensures CurrentSession() == AfterDismount(old(CurrentSession()), entity)
    {
      var riding := controller.HasPassenger();
      if !riding {
        return;
      }
      match entity
      case DismountingOther =>
        return;
      case DismountingPlayer(player) =>
        if player.uuid == passenger.value.uuid {
          controller.SetHasPassenger(false);
        }
    }

    method OnPlayerQuit(player: Player)
      requires Valid()
      modifies controller`hasPassenger, if controller.itemDisplay != null then {controller.itemDisplay} else {}
      ensures Valid()
      ensures CurrentSession() == AfterQuit(old(CurrentSession()), player)
      ensures controller.itemDisplay != null ==> controller.itemDisplay.valid == old(controller.itemDisplay.valid)
      ensures old(controller.hasPassenger) && player.uuid == passenger.value.uuid ==>
        controller.itemDisplay.passengers == old(controller.itemDisplay.passengers) - {PlayerRider(player)}
      ensures !(old(controller.hasPassenger) && player.uuid == passenger.value.uuid) ==>
        controller.itemDisplay == null || unchanged(controller.itemDisplay)
    {
      var riding := controller.HasPassenger();
      if !riding {
        return;
      }
      if player.uuid == passenger.value.uuid {
        controller.itemDisplay.RemovePassenger(PlayerRider(player));
        controller.SetHasPassenger(false);
      }
    }

    /**
     * A right click. Returns the animation task the click started, or null
     * when the click was ignored.
     */
    method OnEntityInteract(clicked: object, player: Player) returns (task: SwingTask?)
      requires Valid()
      requires !controller.hasPassenger ==> controller.interaction != null
      requires !controller.hasPassenger && clicked == controller.interaction && !controller.swinging ==>
        controller.itemDisplay != null
      modifies this`passenger, controller`hasPassenger, controller`swinging
      modifies if controller.itemDisplay != null then {controller.itemDisplay} else {}
      ensures Valid()
      ensures controller.itemDisplay != null ==> controller.itemDisplay.valid == old(controller.itemDisplay.valid)
      ensures CurrentSession() == AfterInteract(old(CurrentSession()), clicked == controller.interaction, player)
      ensures (task != null) == (old(!controller.hasPassenger && clicked == controller.interaction && !controller.swinging))
      ensures task != null ==>
        fresh(task) && fresh(task.swing) && fresh(task.swing.pendulum)
        && task.swing.State() == Animation.FreshSwing && !task.cancelled
        && task.swing.pendulum.trig == controller.trig
        && controller.itemDisplay.passengers == old(controller.itemDisplay.passengers) + {PlayerRider(player)}
      ensures task == null && controller.itemDisplay != null ==> unchanged(controller.itemDisplay)
    {
      task := null;
      var riding := controller.HasPassenger();
      if riding {
        return;
      }
      var swinging := controller.IsSwinging();
      if clicked == controller.interaction && !swinging {
        passenger := Some(player);
        task := controller.Swing(player);
        controller.SetHasPassenger(true);
      }
    }
  }
}
