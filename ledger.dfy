/**
 * The deployment index file: a JSON array of records that `appendToIndex`
 * reads, extends with one timestamped entry, and writes back whole.
 */
module Ledger {
  import opened Wrappers
  import opened JsonValue

  const StepPrepared := "metadata_prepared"
  const StepSent := "transaction_sent"
  const StepDeployed := "nft_deployed"
  const StepFailed := "deployment_failed"

  /** `record.step === step`. */
  predicate HasStep(record: Entry, step: string)
  {
    Get(record, "step") == Some(JStr(step))
  }

  /** `{...entry, timestamp}`: the entry's fields with a fresh timestamp that overrides any earlier one. */
  function Stamp(entry: Entry, timestamp: string): (r: Entry)
    ensures Get(r, "timestamp") == Some(JStr(timestamp))
  {
    entry["timestamp" := JStr(timestamp)]
  }

  /** Stamping adds the `timestamp` key and keeps every other field as it was. */
  lemma StampFields(entry: Entry, timestamp: string)
    ensures Stamp(entry, timestamp).Keys == entry.Keys + {"timestamp"}
    ensures forall k :: k in entry && k != "timestamp" ==> Stamp(entry, timestamp)[k] == entry[k]
  {
  }

  /** Stamping keeps the step, so it never changes which queries select a record. */
  lemma StampKeepsStep(entry: Entry, timestamp: string, step: string)
    ensures HasStep(Stamp(entry, timestamp), step) <==> HasStep(entry, step)
  {
    StampFields(entry, timestamp);
  }

  class DeploymentIndex {
    /** The parsed file; `None` while the file does not exist. */
    var file: Option<seq<Entry>>

    constructor (initial: Option<seq<Entry>>)
      ensures file == initial
    {
      file := initial;
    }

    /** What a reader gets: the array, or `[]` when there is no file yet. */
    function Entries(): seq<Entry>
      reads this
    {
      if file.Some? then file.value else []
    }

    /** `appendToIndex(entry)`: read the array (or []), push the stamped entry, write it back. */
    method Append(entry: Entry, now: string)
      modifies this
      ensures file == Some(old(Entries()) + [Stamp(entry, now)])
      ensures |Entries()| == |old(Entries())| + 1
      ensures Entries()[..|old(Entries())|] == old(Entries())
    {
      var deployments := if file.Some? then file.value else [];
      deployments := deployments + [Stamp(entry, now)];
      file := Some(deployments);
    }
  }
}
