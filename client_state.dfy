/** The per-session bookkeeping of the image-processing server: which image
    ids were produced by a filter, and the two-way association between a
    base image and the image derived from it. The filtering itself, the
    image store and the event loop are not part of this model. */
module LungairMethods {

  /** `ClientState`: `blurredIds` holds the ids of derived images and
      `imageIdMap` links each base image to its derived image and back. */
  class ClientState {
    var imageIdMap: map<string, string>
    var blurredIds: set<string>

    /** Every derived id can be looked up in the map, so the lookup in
        `GetBaseImage` never fails; and every id the map links to is itself
        linked to something, since ids are always associated in pairs. */
    ghost predicate Valid()
      reads this
    {
      && blurredIds <= imageIdMap.Keys
      && forall id :: id in imageIdMap ==> imageIdMap[id] in imageIdMap
    }

    /** A fresh session: both collections start empty. */
    constructor ()
      ensures Valid()
      ensures imageIdMap == map[] && blurredIds == {}
    {
      imageIdMap := map[];
      blurredIds := {};
    }

    /** `get_base_image`: the base of a derived image, or the id itself for
        an image that was not produced by a filter. */
    function GetBaseImage(imgId: string): (r: string)
      reads this
      requires Valid()
      ensures imgId in blurredIds ==> r == imageIdMap[imgId]
      ensures imgId !in blurredIds ==> r == imgId
      ensures imgId in blurredIds ==> r in imageIdMap
    {
      if imgId in blurredIds then imageIdMap[imgId] else imgId
    }

    /** `associate_images`: record `blurredId` as derived from `imageId`. */
    method AssociateImages(imageId: string, blurredId: string)
      requires Valid()
      modifies this
      ensures Valid()
      ensures blurredIds == old(blurredIds) + {blurredId}
      ensures imageIdMap == old(imageIdMap)[imageId := blurredId][blurredId := imageId]
      ensures blurredId in blurredIds && GetBaseImage(blurredId) == imageId
      ensures blurredId in imageIdMap && imageIdMap[blurredId] == imageId
      ensures imageId in imageIdMap && imageIdMap[imageId] == (if imageId == blurredId then imageId else blurredId)
      ensures forall id :: id != imageId && id != blurredId ==>
        (id in imageIdMap <==> id in old(imageIdMap)) &&
        (id in imageIdMap ==> imageIdMap[id] == old(imageIdMap)[id]) &&
        (id in blurredIds <==> id in old(blurredIds))
    {
      blurredIds := blurredIds + {blurredId};
      imageIdMap := imageIdMap[imageId := blurredId];
      imageIdMap := imageIdMap[blurredId := imageId];
    }

    /** The id bookkeeping of the `medianFilter` and `segmentLungs` handlers.
        A request names `imgId`; the operation runs on its base image. If the
        base already has a derived id (a non-empty one: the source tests
        `not blurred_id`), that image is updated in place and the state is
        left alone; otherwise `addedId`, the id the image store gives the new
        output, is associated with the base. `shownId` is the image that is
        shown afterwards. */
    method HandleRequest(imgId: string, addedId: string) returns (baseId: string, shownId: string, created: bool)
      requires Valid()
      modifies this
      ensures Valid()
      ensures baseId == old(GetBaseImage(imgId))
      ensures !created <==> baseId in old(imageIdMap) && old(imageIdMap)[baseId] != ""
      ensures !created ==>
        && shownId == old(imageIdMap)[baseId]
        && imageIdMap == old(imageIdMap) && blurredIds == old(blurredIds)
      ensures created ==>
        && shownId == addedId
        && blurredIds == old(blurredIds) + {addedId}
        && imageIdMap == old(imageIdMap)[baseId := addedId][addedId := baseId]
      ensures shownId in imageIdMap
      ensures created ==> GetBaseImage(shownId) == baseId
      // a repeated request, on the base or on the derived image, reuses the derived image
      ensures created && addedId != "" ==> imageIdMap[GetBaseImage(shownId)] == shownId != ""
    {
      baseId := GetBaseImage(imgId);
      var existing := if baseId in imageIdMap then imageIdMap[baseId] else "";
      if existing == "" {
        shownId := addedId;
        AssociateImages(baseId, shownId);
        created := true;
      } else {
        shownId := existing;
        created := false;
      }
    }
  }

  /** The two handlers as written share one session state. A median filter
      on `imgId` that creates `blurredId`, followed by a lung segmentation on
      the same image, does not create a segmentation image: the segmentation
      finds the blurred image associated with the base, overwrites it and
      shows it. */
  method MedianThenSegmentShared(imgId: string, blurredId: string, segId: string)
    returns (shown: string, created: bool)
    requires blurredId != ""
    ensures !created && shown == blurredId
  {
    var state := new ClientState();
    var _, _, _ := state.HandleRequest(imgId, blurredId);
    var _, s, c := state.HandleRequest(imgId, segId);
    shown, created := s, c;
  }

  /** With one state per operation, the segmentation that follows a median
      filter on the same image creates and shows its own image. */
  method MedianThenSegmentSeparate(imgId: string, blurredId: string, segId: string)
    returns (shown: string, created: bool)
    ensures created && shown == segId
  {
    var medianState := new ClientState();
    var segmentState := new ClientState();
    var _, _, _ := medianState.HandleRequest(imgId, blurredId);
    var _, s, c := segmentState.HandleRequest(imgId, segId);
    shown, created := s, c;
  }
}
