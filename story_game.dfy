/**
 * The story player (frontend/src/components/StoryGame.jsx) without its rendering: the state
 * it keeps, the two effects that react to a new story and to a new current node id, and the
 * two actions a reader can take, choosing an option and restarting.
 */
module StoryGame {
  import opened Wrappers

  /** An option as the client receives it; its target id may be null. */
  datatype OptionData = OptionData(text: string, nodeId: Option<int>)

  /**
   * A node as the client receives it. `misspelledWinningFlag` is whatever the node holds under
   * the key `is_winning_endig`, which is the key the component reads; nodes shaped like the
   * backend's schema carry no such key.
   */
  datatype NodeData = NodeData(
    id: int,
    content: string,
    isEnding: bool,
    isWinningEnding: bool,
    options: Option<seq<OptionData>>,
    misspelledWinningFlag: Option<bool>)

  /** The `story` prop: its root node and its flat map from node id to node, either of which may be missing. */
  datatype StoryData = StoryData(title: string, rootNode: Option<NodeData>, allNodes: Option<map<int, NodeData>>)

  /**
   * The component state. `isWinningEnding` holds a JavaScript value that may be `undefined`
   * (None). `crashed` records that an effect threw, which React does when the current id is no
   * key of `all_nodes`.
   */
  datatype View = View(
    currentNodeId: Option<int>,
    currentNode: Option<NodeData>,
    options: seq<OptionData>,
    isEnding: bool,
    isWinningEnding: Option<bool>,
    crashed: bool)

  /** JavaScript truthiness of a node id: `null` and `0` are falsy. */
  predicate IsTruthy(id: Option<int>) { id.Some? && id.value != 0 }

  /** The state before any effect has run. */
  function InitialView(): View
  {
    View(None, None, [], false, Some(false), false)
  }

  /** The options shown for a node: its list when it is not an ending and the list is non-empty, else none. */
  function VisibleOptions(node: NodeData): (visible: seq<OptionData>)
    ensures visible != [] <==> !node.isEnding && node.options.Some? && |node.options.value| > 0
    ensures visible != [] ==> visible == node.options.value
    ensures node.isEnding ==> visible == []
  {
    if !node.isEnding && node.options.Some? && |node.options.value| > 0 then node.options.value else []
  }

  /** The first effect, and `restartStory`: go to the root node's id when the story has a root node. */
  function EnterRoot(v: View, story: StoryData): View
  {
    if story.rootNode.Some? then v.(currentNodeId := Some(story.rootNode.value.id)) else v
  }

  /**
   * The second effect: when the current id is truthy and the story has `all_nodes`, load that
   * node, its ending flags and its visible options. A missing node is `undefined`: it is stored
   * as the current node and reading its flags throws.
   */
  function LoadCurrentNode(v: View, story: StoryData): View
  {
    if IsTruthy(v.currentNodeId) && story.allNodes.Some? then
      var id := v.currentNodeId.value;
      if id in story.allNodes.value then
        var node := story.allNodes.value[id];
        v.(currentNode := Some(node), isEnding := node.isEnding,
           isWinningEnding := node.misspelledWinningFlag, options := VisibleOptions(node))
      else
        v.(currentNode := None, crashed := true)
    else v
  }

  /** `chooseOption`: the current id becomes the chosen option's target id. */
  function Choose(v: View, optionId: Option<int>): View
  {
    v.(currentNodeId := optionId)
  }

  /** The view is showing node `id` of the story's map, with every derived field in step with it. */
  predicate ShowsNode(v: View, story: StoryData, id: int)
  {
    && story.allNodes.Some?
    && id in story.allNodes.value
    && !v.crashed
    && v.currentNodeId == Some(id)
    && v.currentNode == Some(story.allNodes.value[id])
    && v.isEnding == story.allNodes.value[id].isEnding
    && v.isWinningEnding == story.allNodes.value[id].misspelledWinningFlag
    && v.options == VisibleOptions(story.allNodes.value[id])
  }

  /** An id of the map that can be shown: present and truthy. */
  predicate Showable(story: StoryData, id: int)
  {
    story.allNodes.Some? && id in story.allNodes.value && id != 0
  }

  /** Loading a truthy id of the map shows exactly that node. */
  lemma LoadShowsNode(v: View, story: StoryData)
    requires v.currentNodeId.Some? && Showable(story, v.currentNodeId.value) && !v.crashed
    ensures ShowsNode(LoadCurrentNode(v, story), story, v.currentNodeId.value)
  {
  }

  /** A current id of 0 is falsy, so the node under key 0 is never loaded: the effect changes nothing. */
  lemma ZeroIdNeverLoaded(v: View, story: StoryData)
    requires v.currentNodeId == Some(0)
    ensures LoadCurrentNode(v, story) == v
  {
  }

  /** Running the second effect again with nothing changed in between changes nothing more. */
  lemma LoadCurrentNodeIdempotent(v: View, story: StoryData)
    ensures LoadCurrentNode(LoadCurrentNode(v, story), story) == LoadCurrentNode(v, story)
  {
  }

  /** The state once the story has been mounted and both effects have run. */
  function StartView(story: StoryData): View
  {
    LoadCurrentNode(EnterRoot(InitialView(), story), story)
  }

  /** A story whose root id is a showable id starts at its root node. */
  lemma StartShowsRoot(story: StoryData)
    requires story.rootNode.Some? && Showable(story, story.rootNode.value.id)
    ensures ShowsNode(StartView(story), story, story.rootNode.value.id)
  {
    LoadShowsNode(EnterRoot(InitialView(), story), story);
  }

  /**
   * Restarting, from any state that has not crashed, gives back exactly the state the story
   * started in, provided the root id is showable.
   */
  lemma RestartReturnsToStart(v: View, story: StoryData)
    requires story.rootNode.Some? && Showable(story, story.rootNode.value.id)
    requires !v.crashed
    ensures LoadCurrentNode(EnterRoot(v, story), story) == StartView(story)
  {
  }

  /**
   * The reference walk over the flat map: from node `id`, take the option at each index of
   * `path` among the node's visible options and move to its target. None once an index has no
   * option, a target is null or a target is no key of the map.
   */
  function Walk(nodes: map<int, NodeData>, id: int, path: seq<nat>): Option<int>
    decreases |path|
  {
    if id !in nodes then None
    else if path == [] then Some(id)
    else
      var visible := VisibleOptions(nodes[id]);
      if path[0] < |visible| && visible[path[0]].nodeId.Some? then Walk(nodes, visible[path[0]].nodeId.value, path[1..])
      else None
  }

  /** The reader clicks the option buttons at the indices of `path`, each click followed by the second effect. */
  function Play(v: View, story: StoryData, path: seq<nat>): View
    decreases |path|
  {
    if path == [] then v
    else if path[0] < |v.options| then Play(LoadCurrentNode(Choose(v, v.options[path[0]].nodeId), story), story, path[1..])
    else v
  }

  /**
   * Clicking through the options shows exactly the node the reference walk reaches, as long as
   * no node of the map has the falsy id 0.
   */
  lemma {:induction false} PlayFollowsWalk(v: View, story: StoryData, id: int, path: seq<nat>)
    requires story.allNodes.Some? && 0 !in story.allNodes.value
    requires ShowsNode(v, story, id)
    requires Walk(story.allNodes.value, id, path).Some?
    ensures ShowsNode(Play(v, story, path), story, Walk(story.allNodes.value, id, path).value)
    decreases |path|
  {
    if path != [] {
      var nodes := story.allNodes.value;
      var next := v.options[path[0]].nodeId.value;
      var u := Choose(v, v.options[path[0]].nodeId);
      LoadShowsNode(u, story);
      PlayFollowsWalk(LoadCurrentNode(u, story), story, next, path[1..]);
    }
  }

  /** What can happen to the component: either effect, a click on an option, or a click on restart. */
  datatype Event = StoryEffect | NodeEffect | ChooseOption(optionId: Option<int>) | RestartStory

  function Step(v: View, story: StoryData, e: Event): View
  {
    match e
    case StoryEffect => EnterRoot(v, story)
    case NodeEffect => LoadCurrentNode(v, story)
    case ChooseOption(optionId) => Choose(v, optionId)
    case RestartStory => EnterRoot(v, story)
  }

  function Run(v: View, story: StoryData, events: seq<Event>): View
    decreases |events|
  {
    if events == [] then v else Run(Step(v, story, events[0]), story, events[1..])
  }

  /** No node of the story carries the misspelled key `is_winning_endig`, as with the backend's schema. */
  predicate SchemaShaped(story: StoryData)
  {
    story.allNodes.Some? ==> forall id :: id in story.allNodes.value ==> story.allNodes.value[id].misspelledWinningFlag.None?
  }

  /**
   * Because the component reads the misspelled key, a schema-shaped story never makes
   * `isWinningEnding` truthy, whatever happens, even on a node whose `is_winning_ending` is true:
   * the winning message is never shown.
   */
  lemma {:induction false} WinningEndingNeverShown(v: View, story: StoryData, events: seq<Event>)
    requires SchemaShaped(story)
    requires v.isWinningEnding != Some(true)
    ensures Run(v, story, events).isWinningEnding != Some(true)
    decreases |events|
  {
    if events != [] {
      WinningEndingNeverShown(Step(v, story, events[0]), story, events[1..]);
    }
  }

  /** The component itself, its state held in fields that each setter updates. */
  class Game {
    const story: StoryData
    var currentNodeId: Option<int>
    var currentNode: Option<NodeData>
    var options: seq<OptionData>
    var isEnding: bool
    var isWinningEnding: Option<bool>
    var crashed: bool

    function State(): View
      reads this
    {
      View(currentNodeId, currentNode, options, isEnding, isWinningEnding, crashed)
    }

    /** Mounting: the initial values given to each `useState`. */
    constructor (story: StoryData)
      ensures this.story == story
      ensures State() == InitialView()
    {
      this.story := story;
      currentNodeId := None;
      currentNode := None;
      options := [];
      isEnding := false;
      isWinningEnding := Some(false);
      crashed := false;
    }

    /** The effect that runs when the story changes. */
    method StoryEffect()
      modifies this
      ensures State() == EnterRoot(old(State()), story)
    {
      if story.rootNode.Some? {
        currentNodeId := Some(story.rootNode.value.id);
      }
    }

    /** The effect that runs when the current node id or the story changes. */
    method NodeEffect()
      modifies this
      ensures State() == LoadCurrentNode(old(State()), story)
    {
      if IsTruthy(currentNodeId) && story.allNodes.Some? {
        var id := currentNodeId.value;
        if id !in story.allNodes.value {
          currentNode := None;
          crashed := true;
          return;
        }
        var node := story.allNodes.value[id];
        currentNode := Some(node);
        isEnding := node.isEnding;
        isWinningEnding := node.misspelledWinningFlag;
        if !node.isEnding && node.options.Some? && |node.options.value| > 0 {
          options := node.options.value;
        } else {
          options := [];
        }
      }
    }

    /** `chooseOption(optionId)`: only the current node id changes. */
    method ChooseOption(optionId: Option<int>)
      modifies this
      ensures State() == Choose(old(State()), optionId)
    {
      currentNodeId := optionId;
    }

    /** `restartStory`: back to the root node's id; nothing at all when the story has no root node. */
    method RestartStory()
      modifies this
      ensures State() == EnterRoot(old(State()), story)
    {
      if story.rootNode.Some? {
        currentNodeId := Some(story.rootNode.value.id);
      }
    }
  }
}
