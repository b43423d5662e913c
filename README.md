# LLM Adventure Generator, modelled in Dafny

LLM Adventure Generator is a choose-your-own-adventure web application. A FastAPI backend
accepts a story theme and records a story-generation job. A background task then walks that
job through `pending`, `processing` and `completed` or `failed`, and the client polls the job
until it finishes. A React frontend lets the reader type a theme and then play the finished
story node by node. The LLM story generation itself is still a stub in this version of the
repository: on success the task records the placeholder story id 1.

This project models the core of that system and proves properties of the model:

- `config.dfy` (module `Config`): the settings class. It models the defaults, the three
  required fields, and the validator that splits `ALLOWED_ORIGINS` on commas with Python's
  `str.split` semantics. That parse is proved to round-trip in both directions.
- `jobs.dfy` (module `Jobs`): the `story_jobs` table.
  - `JobTable` is a class holding the stored rows and the ordered log of committed rows.
    Its methods are `create_story`, `generate_story_task` and `get_job_status`.
  - The lifecycle is a sequence of committed statuses. Creating a job and then running its
    task is proved to commit pending, then processing, then completed or failed, and never
    pending straight to failed.
- `story_router.dfy` (module `StoryRouter`): the session-id cookie helper and the
  complete-story lookup with its 404.
- `story_tree.dfy` (module `StoryTree`): the recursive story datatype that the LLM fills in.
  - Its well-formedness predicate states the shape the generation prompt asks for: 2 to 3
    options per non-ending node, 3 to 4 levels deep, and at least one winning ending.
  - Proved about that predicate: a well-formed story has between 5 and 40 nodes, and more
    than half of its nodes are endings.
- `story_game.dfy` (module `StoryGame`): the story player's state machine. `Game` is a class
  with the component's state fields.
  - Each of its two effects and two actions is proved equal to a pure step function.
  - The model keeps JavaScript truthiness: a node id of 0 is never loaded.
  - An id that is missing from `all_nodes` crashes the component.
  - The component reads the misspelled key `is_winning_endig`, and the model keeps it.
    As a consequence, a node shaped like the backend's schema never shows the winning message.
- `theme_input.dfy` (module `ThemeInput`): JavaScript's `trim` and the blank-theme check.
  `ThemeForm` is a class with `onChange` and `handleSubmit`.
- `wrappers.dfy`: `Option`, `Result` and the HTTP error value used by the endpoints.

Inputs the model cannot compute become parameters:

- `freshId` and `jobId` stand for the new `uuid4()` values;
- `createdAt` and `now` stand for `datetime.now()`;
- `TaskOutcome` says whether the generation step raised an exception, and what its message was.

## Model

| member | source | states |
|---|---|---|
| Config.Split | backend/core/config.py:16 | `str.split` on one character always gives at least one piece, empty pieces included |
| Config.SplitJoin | backend/core/config.py:16 | joining the pieces of a split with the separator gives back the original string |
| Config.JoinSplit | backend/core/config.py:16 | splitting a join of separator-free pieces gives back those pieces |
| Config.SplitPiecesLackSeparator | backend/core/config.py:16 | no piece of a split contains the separator |
| Config.SplitLength | backend/core/config.py:16 | a split has one more piece than the string has separators |
| Config.ParseAllowedOrigins | backend/core/config.py:14-16 | the parsed origin list is empty exactly when the ALLOWED_ORIGINS string is empty |
| Config.AllowedOriginsRoundTrip | backend/core/config.py:14-16 | a non-empty ALLOWED_ORIGINS comes back unchanged when its origins are joined with commas |
| Config.AllowedOriginsPieces | backend/core/config.py:14-16 | no origin contains a comma; a non-empty value yields one origin more than it has commas |
| Config.AllowedOriginsFromList | backend/core/config.py:14-16 | a list of comma-free origins, other than [""], parses back from its comma join |
| Config.LoadSettings | backend/core/config.py:6-12 | settings load exactly when DATABASE_URL, OPENAI_API_KEY and GEMINI_API_KEY are all present; the error names each missing one exactly once and nothing else; absent optional fields take their defaults; origins are parsed |
| Config.DefaultSettings | backend/core/config.py:7-10 | with only the required fields set: prefix "/api", debug off, no allowed origins |
| Jobs.StatusNamesDistinct | backend/routers/story.py:47-106 | the status strings "pending", "processing", "completed" and "failed" are distinct, so a stored string names exactly one status |
| Jobs.TaskWrites | backend/routers/story.py:95-109 | the task commits two rows: first the job as processing, then a terminal row. It is completed with story id 1 and the error untouched when generation succeeds, and failed with the exception's message and the story id untouched when it raises. Both set the completion time and keep identity, session, theme and creation time |
| Jobs.TaskCommits | backend/routers/story.py:90-93 | an unknown job id commits nothing; a known one commits the task's two rows |
| Jobs.ApplyTask | backend/routers/story.py:83-109 | after the task, the table has the same ids; only the job run changes, into its terminal row; an unknown id leaves the table as it was |
| Jobs.LookupJob | backend/routers/job.py:15-21 | polling a known id returns its stored row; an unknown id is a 404 "Job not found" |
| Jobs.PollUnaffectedByOtherTask | backend/routers/job.py:17-21 | running the task of one job never changes what a poll of another job returns |
| Jobs.LifecycleShape | backend/routers/story.py:47-109 | any allowed status history has at most three entries, starts pending, has processing second and a terminal state only third and last |
| Jobs.TaskWritesStatuses | backend/routers/story.py:96-109 | the task's commits for its job are processing, then completed or failed |
| Jobs.CreateThenTaskHistory | backend/routers/story.py:42-109 | committing a job and then running its task adds exactly its own status, processing, and completed or failed to that id's history |
| Jobs.CreateThenTaskLifecycle | backend/routers/story.py:42-109 | a pending job under an id with no history, followed by its task, gives a history that follows the allowed transitions |
| Jobs.NoHistoryYet | backend/routers/story.py:42 | an id the table never committed a row for has an empty status history |
| Jobs.JobTable.Create | backend/routers/story.py:42-51 | adds and commits exactly one pending row under the fresh id, with the request's theme and the session id, returns it, and keeps the table consistent with its commit log |
| Jobs.JobTable.RunTask | backend/routers/story.py:83-111 | the table becomes ApplyTask of the old table and the commit log grows by exactly TaskCommits, processing before the terminal row |
| Jobs.JobTable.CreateThenRun | backend/routers/story.py:42-81 | a job created and then run by its queued task has committed history pending, processing, then completed or failed, which is a lifecycle; the table gains exactly that job, stored in its terminal state, every other job is unchanged, and the log grows by exactly the pending row and the task's two rows |
| Jobs.JobTable.Get | backend/routers/job.py:15-21 | a poll returns LookupJob of the current table and changes nothing |
| Jobs.JobTable.PollTwice | backend/routers/job.py:15-21 | two polls with no write between them return the same answer |
| StoryRouter.GetSessionId | backend/routers/story.py:24-27 | a present, non-empty cookie value is kept; a missing or empty one is replaced by a fresh id |
| StoryRouter.SessionIdSticks | backend/routers/story.py:24-40 | once the cookie is set to the session id used, later requests keep that id, provided fresh ids are non-empty |
| StoryRouter.GetCompleteStory | backend/routers/story.py:113-120 | an unknown story id is a 404 "Story not found"; a known one returns its stored row |
| StoryTree.SizeLowerBound | backend/core/prompts.py:13 | a tree branching as the prompt asks has at least 2h - 1 nodes at height h |
| StoryTree.SizeUpperBound | backend/core/prompts.py:13 | such a tree has at most (3^h - 1) / 2 nodes |
| StoryTree.WellFormedSize | backend/core/prompts.py:7-16 | a story of the requested shape has between 5 and 40 nodes |
| StoryTree.EndingsOutnumber | backend/core/prompts.py:13 | in such a tree, twice the number of endings is at least the number of nodes plus one |
| StoryGame.VisibleOptions | frontend/src/components/StoryGame.jsx:25-29 | options are shown exactly when the node is not an ending and has a non-empty list, and they are that list; an ending shows none |
| StoryGame.LoadShowsNode | frontend/src/components/StoryGame.jsx:17-31 | loading a truthy id present in all_nodes shows that node, its flags and its visible options |
| StoryGame.ZeroIdNeverLoaded | frontend/src/components/StoryGame.jsx:18 | a current id of 0 is falsy, so the node effect leaves the state unchanged |
| StoryGame.LoadCurrentNodeIdempotent | frontend/src/components/StoryGame.jsx:17-31 | running the node effect again with nothing changed in between changes nothing more |
| StoryGame.StartShowsRoot | frontend/src/components/StoryGame.jsx:4-31 | after mounting and both effects, a story with a showable root shows its root node |
| StoryGame.RestartReturnsToStart | frontend/src/components/StoryGame.jsx:38-42 | restarting from any non-crashed state gives exactly the starting state |
| StoryGame.PlayFollowsWalk | frontend/src/components/StoryGame.jsx:34-36 | clicking options by index shows exactly the node that the reference walk over all_nodes reaches |
| StoryGame.WinningEndingNeverShown | frontend/src/components/StoryGame.jsx:23 | with nodes that lack the misspelled key, no sequence of effects and clicks makes isWinningEnding true |
| StoryGame.Game.constructor | frontend/src/components/StoryGame.jsx:4-8 | the initial state: no current id or node, no options, not an ending, not winning |
| StoryGame.Game.StoryEffect | frontend/src/components/StoryGame.jsx:10-15 | the current id becomes the root node's id when the story has a root node; nothing else changes |
| StoryGame.Game.NodeEffect | frontend/src/components/StoryGame.jsx:17-31 | the state becomes LoadCurrentNode of the old state, including the crash on a missing node |
| StoryGame.Game.ChooseOption | frontend/src/components/StoryGame.jsx:34-36 | only the current id changes, to the chosen option's target |
| StoryGame.Game.RestartStory | frontend/src/components/StoryGame.jsx:38-42 | back to the root node's id; nothing changes when there is no root node |
| ThemeInput.TrimStart | frontend/src/components/ThemeInput.jsx:8 | drops exactly the leading white space: a suffix whose first character is kept |
| ThemeInput.TrimEnd | frontend/src/components/ThemeInput.jsx:8 | drops exactly the trailing white space: a prefix whose last character is kept |
| ThemeInput.BlankIffAllWhiteSpace | frontend/src/components/ThemeInput.jsx:8 | a theme is rejected as blank exactly when all its characters are white space |
| ThemeInput.ThemeForm.constructor | frontend/src/components/ThemeInput.jsx:4-5 | the theme and the error start empty |
| ThemeInput.ThemeForm.OnChange | frontend/src/components/ThemeInput.jsx:22 | the theme becomes the input's value; the error is kept |
| ThemeInput.ThemeForm.HandleSubmit | frontend/src/components/ThemeInput.jsx:6-13 | a blank theme sets "Theme cannot be empty" and submits nothing; any other theme is submitted untrimmed and the error is left as it was |

## Left out

- HTTP and framework wiring is not modelled: FastAPI routing, response models, the cookie-setting response header, CORS middleware and the `/api` prefix.
- None of the route paths are modelled. The complete-story route is declared as `{story_id}/complete`, with no leading slash.
- The database engine and sessions (`backend/db/database.py`) become a map and a commit log. The model covers no SQL, no query plans and no closing of sessions.
- Concurrency between the request thread and the background thread is not modelled. The task runs after `create_story` returns, on its own.
- A `db.commit()` that itself raises is not modelled.
- Environment and `.env` file reading is not modelled, and neither is pydantic's conversion of strings to `bool`. `LoadSettings` receives values that are already typed.
- `uuid4()` and `datetime.now()` become parameters of the operations that use them.
- Jobs.JobTable.Create: the fresh job id is assumed absent from the table (`requires jobId !in jobs`, also on `CreateThenRun`). The source does not check for a `uuid4()` collision; one would store a second row under the same id, and `.first()` could return either.
- `models/job.py` is not part of this model. The sources show `created_at` only as a required response field, so `Create` takes the creation time as a parameter.
- StoryRouter.GetCompleteStory: the model stops at the handler's return value, the stored story row. The route's declared response model needs `root_nodes` and `all_nodes`, which the row does not carry, so the serialization of a found story is not modelled.
- LLM story generation, the story tables (`backend/models/story.py`) and `build_complete_story_tree` are not in the model, because the source leaves them unimplemented.
- StoryTree: `nextNode` is typed `Dict[str, Any]` in the source. The model makes it a `StoryNode` so that the prompt's shape can be stated. The well-formedness predicate is a specification only: nothing in the source checks it.
- StoryGame: the frontend reads `story.root_node` and `story.all_nodes`. The backend's schema calls its root field `root_nodes`. The model takes the frontend's view as its input.
- StoryGame: nothing is modelled of rendering, of the `onNewStory` button, or of the other components (`StoryGenerator`, `StoryLoader`, `App`, `LoadingStatus`).
- StoryGame: React's scheduling of effects is not modelled. The methods are the effect bodies, and `Run` takes any order of events. The node effect is proved idempotent, so re-runs do not matter.
- StoryGame: a `null` or missing `story` prop is not modelled. Rendering reads `story.title` anyway.
- ThemeInput: `preventDefault` and the `onSubmit` callback are left out. `HandleSubmit` returns the submitted theme instead.
- ThemeInput: the error-message rendering is left out.
