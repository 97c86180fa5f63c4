/** `InMemoryStore`: the checkpoint map that all runs share. */
module Stores {
  import opened Primitives
  import opened Vm
  import Requests

  class InMemoryStore {
    var data: map<string, Record>

    constructor ()
      ensures data == map[]
    {
      data := map[];
    }

    method Save(runId: string, record: Record)
      modifies this
      ensures data == Requests.Put(old(data), runId, Some(record))
    {
      data := data[runId := record];
    }

    method Load(runId: string) returns (record: Option<Record>)
      ensures record == Requests.Lookup(data, runId)
    {
      record := if runId in data then Some(data[runId]) else None;
    }

    /** Deleting an absent entry is no error. */
    method Delete(runId: string)
      modifies this
      ensures data == Requests.Put(old(data), runId, None)
    {
      data := data - {runId};
    }

    method Exists(runId: string) returns (found: bool)
      ensures found <==> Requests.Lookup(data, runId).Some?
    {
      found := runId in data;
    }
  }
}
