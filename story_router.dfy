/**
 * The request-side helpers of the stories router (backend/routers/story.py): the session id
 * taken from the cookie, and the lookup of a complete story.
 */
module StoryRouter {
  import opened Wrappers
  import opened Http

  /**
   * `get_session_id`: the cookie's session id when it is present and non-empty; otherwise
   * `freshId`, which stands for a newly generated `uuid4()`.
   */
  function GetSessionId(cookie: Option<string>, freshId: string): (sessionId: string)
    ensures cookie.Some? && cookie.value != "" ==> sessionId == cookie.value
    ensures cookie.None? || cookie.value == "" ==> sessionId == freshId
  {
    if cookie.Some? && cookie.value != "" then cookie.value else freshId
  }

  /**
   * The server sets the cookie to the session id it used; as long as fresh ids are non-empty
   * (a uuid4 string always is) the next request keeps that same session id.
   */
  lemma SessionIdSticks(cookie: Option<string>, freshId: string, laterFreshId: string)
    requires freshId != ""
    ensures GetSessionId(Some(GetSessionId(cookie, freshId)), laterFreshId) == GetSessionId(cookie, freshId)
  {
  }

  /** One row of `stories`. */
  datatype StoryRow = StoryRow(id: int, title: string, sessionId: string, createdAt: int)

  /**
   * `get_complete_story`: a 404 "Story not found" for an unknown id; otherwise the stored
   * row, returned as it is (building the node tree is not implemented).
   */
  function GetCompleteStory(stories: map<int, StoryRow>, storyId: int): (r: Result<StoryRow, HttpError>)
    ensures r.Failure? <==> storyId !in stories
    ensures r.Failure? ==> r.error == HttpError(NotFound, "Story not found")
    ensures r.Success? ==> r.value == stories[storyId]
  {
    if storyId in stories then Success(stories[storyId]) else Failure(HttpError(NotFound, "Story not found"))
  }
}
