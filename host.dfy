/**
 * Stand-ins for the host world's values and entity handles. Only what the
 * tire swing's control layer reads or writes is kept: a display's liveness
 * flag, its passengers and the values it was spawned with.
 */
module Host {

  datatype Option<+T> = None | Some(value: T)

  /** A point in the world; the world itself is implicit (one world). */
  datatype Location = Location(x: real, y: real, z: real)

  /** Opaque references to host-side values that the model only passes along. */
  datatype Transformation = Transformation(id: nat)
  datatype ItemStack = ItemStack(id: nat)
  datatype BlockData = BlockData(id: nat)

  /** A player is identified by its unique id. */
  datatype Player = Player(uuid: nat)

  /** Something riding an entity: a player or another display. */
  datatype Rider = PlayerRider(player: Player) | DisplayRider(display: Display)

  /**
   * An item display entity. The location, transformation, item and
   * persistence are the ones the spawn callback sets; the rotation that
   * later rewrites the transformation (Rotation.java) is not part of this
   * model, so they stay fixed here. `valid` turns false when something
   * outside the plugin removes the entity; `passengers` are the entities
   * attached to it.
   */
  class Display {
    const location: Location
    const transformation: Transformation
    const itemStack: ItemStack
    const persistent: bool
    var valid: bool
    var passengers: set<Rider>

    /** Spawning a display and configuring it in the spawn callback. */
    constructor (location: Location, transformation: Transformation, itemStack: ItemStack)
      ensures this.location == location
      ensures this.transformation == transformation && this.itemStack == itemStack
      ensures !persistent && valid && passengers == {}
    {
      this.location := location;
      this.transformation := transformation;
      this.itemStack := itemStack;
      persistent := false;
      valid := true;
      passengers := {};
    }

    method IsValid() returns (v: bool)
      ensures v == valid
    {
      v := valid;
    }

    method AddPassenger(r: Rider)
      modifies this`passengers
      ensures passengers == old(passengers) + {r}
    {
      passengers := passengers + {r};
    }

    method RemovePassenger(r: Rider)
      modifies this`passengers
      ensures passengers == old(passengers) - {r}
    {
      passengers := passengers - {r};
    }
  }

  /** The clickable hit box a player uses to mount the swing. */
  class Interaction {
    const location: Location
    const height: real
    const width: real
    const persistent: bool

    constructor (location: Location, height: real, width: real)
      ensures this.location == location && this.height == height && this.width == width
      ensures !persistent
    {
      this.location := location;
      this.height := height;
      this.width := width;
      persistent := false;
    }
  }
}
