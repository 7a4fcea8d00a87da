/**
 * One refresh cycle of the background updater: build the list of container entries, then
 * replace the cached containers, host figures and timestamp in turn, under one lock.
 */
module Refresh {
  import opened Wrappers
  import opened ContainerSampler

  /** The host figures read once per cycle; their values come from outside the model. */
  datatype HostStatus = HostStatus(cpuUsagePercent: real, memoryUsagePercent: real,
                                   diskUsagePercent: real)

  /** The entries of the listed containers, one per container, in listing order. */
  function Entries(listed: seq<Sample>): (r: seq<Entry>)
    ensures |r| == |listed|
  {
    if listed == [] then []
    else Entries(listed[..|listed| - 1]) + [SampleEntry(listed[|listed| - 1])]
  }

  /**
   * The container list of a cycle. `docker` is the container listing, or None when there is
   * no Docker client, in which case no container is sampled.
   */
  function Snapshot(docker: Option<seq<Sample>>): seq<Entry> {
    if docker.Some? then Entries(docker.value) else []
  }

  /** Entry `k` is the entry of container `k`, whatever happened to the other containers. */
  lemma {:induction false} EntriesAt(listed: seq<Sample>, k: nat)
    requires k < |listed|
    ensures Entries(listed)[k] == SampleEntry(listed[k])
  {
    var n := |listed| - 1;
    if k < n {
      EntriesAt(listed[..n], k);
    }
  }

  /** Sampling the listing in two parts gives the same entries in the same order. */
  lemma {:induction false} EntriesAppend(first: seq<Sample>, rest: seq<Sample>)
    ensures Entries(first + rest) == Entries(first) + Entries(rest)
  {
    if rest == [] {
      assert first + rest == first;
    } else {
      var n := |rest| - 1;
      assert (first + rest)[..|first + rest| - 1] == first + rest[..n];
      EntriesAppend(first, rest[..n]);
    }
  }

  /**
   * Failure isolation: changing what one container answers (for instance making one of its
   * calls raise) changes its own entry only.
   */
  lemma FailureIsolation(listed: seq<Sample>, k: nat, changed: Sample)
    requires k < |listed|
    ensures forall j :: 0 <= j < |listed| && j != k ==> Entries(listed[k := changed])[j] == Entries(listed)[j]
    ensures Entries(listed[k := changed])[k] == SampleEntry(changed)
  {
    var other := listed[k := changed];
    EntriesAt(other, k);
    forall j | 0 <= j < |listed| && j != k
      ensures Entries(other)[j] == Entries(listed)[j]
    {
      EntriesAt(other, j);
      EntriesAt(listed, j);
    }
  }

  /** Every entry of a cycle has an id of at most twelve characters, a prefix of its container's id. */
  lemma SnapshotIdsAreShort(docker: Option<seq<Sample>>)
    ensures docker.None? ==> Snapshot(docker) == []
    ensures docker.Some? ==> |Snapshot(docker)| == |docker.value|
    ensures docker.Some? ==> forall k :: 0 <= k < |docker.value| ==>
              Snapshot(docker)[k].id <= docker.value[k].id && |Snapshot(docker)[k].id| <= ShortIdLength
  {
    if docker.Some? {
      forall k | 0 <= k < |docker.value|
        ensures Snapshot(docker)[k].id <= docker.value[k].id && |Snapshot(docker)[k].id| <= ShortIdLength
      {
        EntriesAt(docker.value, k);
      }
    }
  }

  /** All ids in a list of entries are short; the invariant the cache keeps. */
  ghost predicate ShortIds(entries: seq<Entry>) {
    forall k :: 0 <= k < |entries| ==> |entries[k].id| <= ShortIdLength
  }

  /**
   * The `for` loop of a cycle: sample each listed container in turn and append its entry.
   * With no Docker client the list stays empty.
   */
  method BuildResult(docker: Option<seq<Sample>>) returns (result: seq<Entry>)
    ensures result == Snapshot(docker)
    ensures docker.Some? ==> |result| == |docker.value|
    ensures docker.Some? ==> forall k :: 0 <= k < |result| ==> result[k] == SampleEntry(docker.value[k])
  {
    result := [];
    if docker.Some? {
      var listed := docker.value;
      for i := 0 to |listed|
        invariant result == Entries(listed[..i])
      {
        assert listed[..i + 1][..i] == listed[..i];
        result := result + [SampleEntry(listed[i])];
      }
      assert listed[..|listed|] == listed;
      forall k | 0 <= k < |result|
        ensures result[k] == SampleEntry(listed[k])
      {
        EntriesAt(listed, k);
      }
    }
  }

  /** The cached state read by the API: the containers, the host figures and the time of the last cycle. */
  class SnapshotCache {
    var containers: seq<Entry>
    var system: Option<HostStatus>   // None is the empty dictionary before the first cycle
    var lastUpdate: string

    ghost predicate Valid()
      reads this
    {
      ShortIds(containers)
    }

    /** The cache before the first cycle: no containers, no host figures, an empty timestamp. */
    constructor ()
      ensures Valid()
      ensures containers == [] && system == None && lastUpdate == ""
    {
      containers := [];
      system := None;
      lastUpdate := "";
    }

    /**
     * One cycle: build the entries, then replace the three cached fields, in the source's order,
     * under one lock. The host figures and the timestamp are set also when there is no Docker
     * client. The host figures are an input, so the model has no failure between the fields.
     */
    method UpdateOnce(docker: Option<seq<Sample>>, host: HostStatus, now: string)
      modifies this
      ensures Valid()
      ensures containers == Snapshot(docker)
      ensures system == Some(host) && lastUpdate == now
    {
      var result := BuildResult(docker);
      SnapshotIdsAreShort(docker);
      containers := result;
      system := Some(host);
      lastUpdate := now;
    }
  }
}
