/**
 * Volume collection: the instance's block-device mappings, as returned by the
 * compute service's "describe instance attribute (blockDeviceMapping)" query,
 * turned into the ordered list of attached volume identifiers.
 */
module Volumes {

  /** One block-device mapping of the instance, reduced to the one field the handler reads: the attached volume's identifier. */
  datatype BlockDeviceMapping = BlockDeviceMapping(volumeId: string)

  /**
   * The volume identifiers of `mappings`, one per mapping and in mapping order.
   * Nothing is de-duplicated: a volume listed twice is checked (and notified) twice.
   */
  function VolumeIds(mappings: seq<BlockDeviceMapping>): (ids: seq<string>)
    ensures |ids| == |mappings|
    ensures forall i :: 0 <= i < |mappings| ==> ids[i] == mappings[i].volumeId
  {
    if mappings == [] then []
    else VolumeIds(mappings[..|mappings| - 1]) + [mappings[|mappings| - 1].volumeId]
  }

  /** Collecting the volumes of two runs of mappings is collecting each and concatenating. */
  lemma VolumeIdsAppend(a: seq<BlockDeviceMapping>, b: seq<BlockDeviceMapping>)
    ensures VolumeIds(a + b) == VolumeIds(a) + VolumeIds(b)
  {
  }

  /**
   * The collection loop: appends each mapping's volume identifier in turn.
   */
  method CollectVolumeIds(mappings: seq<BlockDeviceMapping>) returns (attached: seq<string>)
    ensures attached == VolumeIds(mappings)
  {
    attached := [];
    var i := 0;
    while i < |mappings|
      invariant 0 <= i <= |mappings|
      invariant attached == VolumeIds(mappings[..i])
    {
      assert mappings[..i + 1][..i] == mappings[..i];
      attached := attached + [mappings[i].volumeId];
      i := i + 1;
    }
    assert mappings[..i] == mappings;
  }
}
