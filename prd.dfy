/**
 * The story document `prd.json` as the loop reads it: a project header and an
 * ordered list of stories. Field names follow the ones the code reads.
 */
module Prd {

  import opened Wrappers

  datatype Story = Story(
    id: string,
    title: string,
    description: string,
    /** Lower value = picked earlier. */
    priority: int,
    /** The acceptance criteria, in order. */
    acceptance: seq<string>,
    requiresBrowser: bool,
    /** Page to screenshot; missing or empty means the default dev-server address. */
    verifyUrl: Option<string>,
    /** Set by the agent when the story is done: the loop's only success signal. */
    passes: bool,
    /** Set by the loop when the story ran out of retries. */
    blocked: bool)

  datatype Document = Document(
    project: string,
    branchName: string,
    description: string,
    stories: seq<Story>)

  /** The first story carrying `id` (`stories.find((s) => s.id === id)`). */
  function FindById(stories: seq<Story>, id: string): (r: Option<nat>)
    ensures r.Some? ==> r.value < |stories| && stories[r.value].id == id
    ensures r.Some? ==> forall j :: 0 <= j < r.value ==> stories[j].id != id
    ensures r.None? ==> forall j :: 0 <= j < |stories| ==> stories[j].id != id
    decreases |stories|
  {
    if |stories| == 0 then None
    else if stories[0].id == id then Some(0)
    else
      match FindById(stories[1..], id)
      case None => None
      case Some(k) => Some(k + 1)
  }

  /** Number of stories with `passes` set (`stories.filter((s) => s.passes).length`). */
  function CountPassing(stories: seq<Story>): (n: nat)
    ensures n <= |stories|
    ensures n == |stories| <==> forall j :: 0 <= j < |stories| ==> stories[j].passes
    decreases |stories|
  {
    if |stories| == 0 then 0
    else (if stories[0].passes then 1 else 0) + CountPassing(stories[1..])
  }
}
