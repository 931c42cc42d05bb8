/** The records the components pass between each other (src/types/apify.ts). */
module Apify {
  import opened Json

  /** An actor as listed by the selector and handed to the executor. */
  datatype Actor = Actor(
    id: string,
    name: string,
    title: string,
    description: string,
    username: Option<string>,
    inputSchema: Option<Json>)

  datatype RunStats = RunStats(itemCount: int, executionTime: real)

  /** What a finished run reports back to the executor screen. */
  datatype ExecutionResult = ExecutionResult(
    runId: string,
    status: string,
    results: seq<Json>,
    stats: RunStats)

  /** One entry of a `startUrls` list: `{ url: u }`. */
  function StartUrl(u: string): (j: Json)
    ensures Member(j, "url") == Some(JStr(u))
  {
    JObj([("url", JStr(u))])
  }
}
