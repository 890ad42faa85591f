/**
 * A model: a fixed list of part descriptions and the display entities
 * spawned for them, kept as (description, display) pairs in spawn order.
 */
module Models {
  import opened Host

  /**
   * The static description of one part. ModelData.java is not part of this
   * model; its two fields are the ones Model.java reads when spawning.
   */
  datatype ModelData = ModelData(transformation: Transformation, itemStack: ItemStack)

  /** A spawned part. ModelEntity.java is not part of this model. */
  datatype ModelEntity = ModelEntity(modelData: ModelData, itemDisplay: Display)

  class Model {
    const modelDataList: seq<ModelData>
    var modelEntities: seq<ModelEntity>

    /** The displays the entity list refers to. */
    function Displays(): set<Display>
      reads this
    {
      set k | 0 <= k < |modelEntities| :: modelEntities[k].itemDisplay
    }

    /** Something is spawned and every spawned display is still alive. */
    predicate Live()
      reads this, Displays()
    {
      |modelEntities| > 0
      && forall k :: 0 <= k < |modelEntities| ==> modelEntities[k].itemDisplay.valid
    }

    /**
     * The entities from position `start` on are the first `count` part
     * descriptions, in order, each paired with its own display spawned since
     * the pre-state at `location` and configured from that description.
     */
    twostate predicate Spawned(start: nat, count: nat, location: Location)
      reads this
    {
      count <= |modelDataList|
      && |modelEntities| == start + count
      && (forall k :: start <= k < |modelEntities| ==>
            var e := modelEntities[k];
            e.modelData == modelDataList[k - start]
            && fresh(e.itemDisplay)
            && !e.itemDisplay.persistent
            && e.itemDisplay.location == location
            && e.itemDisplay.transformation == e.modelData.transformation
            && e.itemDisplay.itemStack == e.modelData.itemStack)
      && (forall i, j :: start <= i < j < |modelEntities| ==>
            modelEntities[i].itemDisplay != modelEntities[j].itemDisplay)
    }

    /** Every display from position `start` on is alive. */
    predicate LiveFrom(start: nat)
      reads this, Displays()
    {
      forall k :: start <= k < |modelEntities| ==> modelEntities[k].itemDisplay.valid
    }

    constructor (modelDataList: seq<ModelData>)
      ensures this.modelDataList == modelDataList
      ensures modelEntities == []
    {
      this.modelDataList := modelDataList;
      modelEntities := [];
    }

    /** Spawns one display per part description and appends the pairs. */
    method Spawn(location: Location)
      modifies this`modelEntities
      ensures |modelEntities| == |old(modelEntities)| + |modelDataList|
      ensures modelEntities[..|old(modelEntities)|] == old(modelEntities)
      ensures Spawned(|old(modelEntities)|, |modelDataList|, location)
      ensures LiveFrom(|old(modelEntities)|)
      ensures forall i :: |old(modelEntities)| <= i < |modelEntities| ==> modelEntities[i].itemDisplay.passengers == {}
    {
      var i := 0;
      while i < |modelDataList|
        invariant 0 <= i <= |modelDataList|
        invariant |modelEntities| == |old(modelEntities)| + i
        invariant modelEntities[..|old(modelEntities)|] == old(modelEntities)
        invariant forall k :: 0 <= k < i ==> modelEntities[|old(modelEntities)| + k].modelData == modelDataList[k]
        invariant forall k :: |old(modelEntities)| <= k < |modelEntities| ==> fresh(modelEntities[k].itemDisplay)
        invariant forall k :: |old(modelEntities)| <= k < |modelEntities| ==>
          var d := modelEntities[k].itemDisplay;
          !d.persistent && d.location == location
          && d.transformation == modelEntities[k].modelData.transformation
          && d.itemStack == modelEntities[k].modelData.itemStack
        invariant forall k :: |old(modelEntities)| <= k < |modelEntities| ==> modelEntities[k].itemDisplay.passengers == {}
        invariant LiveFrom(|old(modelEntities)|)
        invariant forall a, b :: |old(modelEntities)| <= a < b < |modelEntities| ==>
          modelEntities[a].itemDisplay != modelEntities[b].itemDisplay
      {
        var modelData := modelDataList[i];
        var itemDisplay := new Display(location, modelData.transformation, modelData.itemStack);
        ghost var before := modelEntities;
        modelEntities := modelEntities + [ModelEntity(modelData, itemDisplay)];
        assert forall k :: 0 <= k < |before| ==> modelEntities[k] == before[k];
        i := i + 1;
      }
    }

    /** Forgets every spawned entity; the displays themselves are left alone. */
    method Clear()
      modifies this`modelEntities
      ensures modelEntities == []
    {
      modelEntities := [];
    }

    method GetModelEntities() returns (entities: seq<ModelEntity>)
      ensures entities == modelEntities
    {
      entities := modelEntities;
    }

    method GetModelDataList() returns (dataList: seq<ModelData>)
      ensures dataList == modelDataList
    {
      dataList := modelDataList;
    }
  }
}
