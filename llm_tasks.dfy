/**
 * The interface of the concurrent task runner the batch helpers use. The
 * runner itself, `execute_llm_tasks`, is not part of this model: a batch is
 * given the mapping from task id to result that the runner returned.
 */
module LlmTasks {
  import opened Wrappers
  import opened Values

  /** The ids of the jobs that become tasks: those whose `job_id` is truthy. */
  function TaskIds(jobs: seq<Dict>): (ids: set<Value>)
    ensures forall id :: id in ids ==> Truthy(id)
  {
    set j | j in jobs && Truthy(Get(j, "job_id")) :: Get(j, "job_id")
  }

  /** `{job_id: result for job_id, result in results.items() if result}`. */
  function KeptResults<T>(results: map<Value, Option<T>>): map<Value, T> {
    map id | id in results && results[id].Some? :: results[id].value
  }

  /** A result is kept exactly when the runner produced one, and it is kept as produced. */
  lemma KeptResultsExact<T>(results: map<Value, Option<T>>, id: Value)
    ensures id in KeptResults(results) <==> id in results && results[id].Some?
    ensures id in KeptResults(results) ==> KeptResults(results)[id] == results[id].value
  {
  }

  /** A job with a truthy id is submitted. */
  lemma TaskIdsMember(jobs: seq<Dict>, i: nat)
    requires i < |jobs| && Truthy(Get(jobs[i], "job_id"))
    ensures Get(jobs[i], "job_id") in TaskIds(jobs)
  {
    assert jobs[i] in jobs;
  }

  /** A batch keyed by job id: empty when no job has an id, else the kept results. */
  function IdBatch<T>(jobs: seq<Dict>, results: map<Value, Option<T>>): map<Value, T> {
    if TaskIds(jobs) == {} then map[] else KeptResults(results)
  }

  /** A batch that also needs the portfolio text: empty without jobs or without that text. */
  function PortfolioBatch<T>(jobs: seq<Dict>, portfolio: Dict, results: map<Value, Option<T>>): map<Value, T> {
    if jobs == [] || !Truthy(Get(portfolio, "combined_text")) then map[]
    else IdBatch(jobs, results)
  }

  lemma PortfolioBatchEmpty<T>(jobs: seq<Dict>, portfolio: Dict, results: map<Value, Option<T>>)
    requires jobs == [] || !Truthy(Get(portfolio, "combined_text"))
    ensures PortfolioBatch(jobs, portfolio, results) == map[]
  {
  }

  /**
   * When the runner answers only for the tasks it was given, a batch keeps
   * exactly the submitted ids it has a result for, and only truthy ids.
   */
  lemma IdBatchKeeps<T>(jobs: seq<Dict>, results: map<Value, Option<T>>, id: Value)
    requires results.Keys <= TaskIds(jobs)
    ensures id in IdBatch(jobs, results) <==> id in results && results[id].Some?
    ensures id in IdBatch(jobs, results) ==> Truthy(id) && IdBatch(jobs, results)[id] == results[id].value
  {
    KeptResultsExact(results, id);
  }

  lemma PortfolioBatchKeeps<T>(jobs: seq<Dict>, portfolio: Dict, results: map<Value, Option<T>>, id: Value)
    requires results.Keys <= TaskIds(jobs)
    requires jobs != [] && Truthy(Get(portfolio, "combined_text"))
    ensures id in PortfolioBatch(jobs, portfolio, results) <==> id in results && results[id].Some?
    ensures id in PortfolioBatch(jobs, portfolio, results) ==> Truthy(id)
  {
    IdBatchKeeps(jobs, results, id);
  }

  /**
   * The result-collecting loop of the fit batches:
   * `for job_id, result in task_results.items(): if result: results[job_id] = result`.
   */
  method CollectResults<T>(results: map<Value, Option<T>>) returns (kept: map<Value, T>)
    ensures kept == KeptResults(results)
  {
    kept := map[];
    var pending := results.Keys;
    while pending != {}
      invariant pending <= results.Keys
      invariant forall id :: id in kept <==> id in results && id !in pending && results[id].Some?
      invariant forall id :: id in kept ==> kept[id] == results[id].value
      decreases pending
    {
      var id :| id in pending;
      if results[id].Some? {
        kept := kept[id := results[id].value];
      }
      pending := pending - {id};
    }
  }
}
