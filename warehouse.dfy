/**
 * The parts of the warehouse client library (`google.cloud.bigquery`) that
 * the package configures: table references, job configurations, and a
 * client whose dry-run answers come from an oracle. Nothing here talks to a
 * service; the oracle stands for whatever the service would answer.
 */
module Warehouse {
  import opened Wrappers

  /** The project a reference names: the client's default one, or an explicit one. */
  datatype ProjectRef = DefaultProject | Project(name: string)

  /** `client.dataset(dataset, project=...).table(table)`. */
  datatype TableRef = TableRef(project: ProjectRef, dataset: string, table: string)

  /** The fields of `bigquery.QueryJobConfig` this package sets; `None` is "left unset". */
  datatype QueryJobConfig = QueryJobConfig(destination: Option<TableRef>, dryRun: bool, useQueryCache: Option<bool>)

  /** A freshly constructed `bigquery.QueryJobConfig()`. */
  const NEW_QUERY_CONFIG := QueryJobConfig(None, false, None)

  /** What a query request submitted with `dry_run = True` comes back with. */
  datatype DryRunResponse =
    | Estimated(totalBytesBilled: Option<nat>) // a job; its `total_bytes_billed` is `None` when the service gives no figure
    | HttpError                        // `requests.exceptions.HTTPError` raised by the client
    | OtherError(message: string)      // any other exception raised by the client

  /**
   * A `bigquery.Client`. The service is an oracle: the answer to the n-th
   * request of this client depends on the text, the config and n, and on
   * nothing this model knows about.
   */
  class Client {
    const answer: (string, QueryJobConfig, nat) -> DryRunResponse
    /** How many requests this client has sent. */
    var calls: nat

    constructor (answer: (string, QueryJobConfig, nat) -> DryRunResponse)
      ensures this.answer == answer && calls == 0
    {
      this.answer := answer;
      calls := 0;
    }

    /** `client.query(query=sql, job_config=config)`: one request to the service. */
    method Query(sql: string, config: QueryJobConfig) returns (r: DryRunResponse)
      modifies this
      ensures calls == old(calls) + 1
      ensures r == answer(sql, config, old(calls))
    {
      r := answer(sql, config, calls);
      calls := calls + 1;
    }
  }
}
