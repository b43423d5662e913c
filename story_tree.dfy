/**
 * The story tree the language model is asked to return (backend/core/models.py): a title and a
 * root node, each node holding its text, its ending flags and, optionally, the options leading
 * to the next nodes. The structural rules stated in the generation prompt
 * (backend/core/prompts.py) are given here as a specification predicate, WellFormed; the
 * backend never checks them.
 */
module StoryTree {

  /** One choice offered to the reader: its text and the node it leads to. */
  datatype StoryOption = StoryOption(text: string, nextNode: StoryNode)

  /** A node's options field, which may be absent (the default) or a list. */
  datatype Options = Absent | Listed(items: seq<StoryOption>)

  datatype StoryNode = StoryNode(content: string, isEnding: bool, isWinningEnding: bool, options: Options)

  /** The whole response: exactly one title and exactly one root node. */
  datatype StoryResponse = StoryResponse(title: string, rootNode: StoryNode)

  function Max(a: nat, b: nat): nat { if a >= b then a else b }

  /** The number of levels of the tree below and including `n`. */
  function Height(n: StoryNode): nat
    decreases n
  {
    match n.options
    case Absent => 1
    case Listed(os) => 1 + HeightOf(os)
  }

  /** The largest height among the nodes the options lead to (0 for no options). */
  function HeightOf(os: seq<StoryOption>): nat
    decreases os
  {
    if os == [] then 0 else Max(Height(os[0].nextNode), HeightOf(os[1..]))
  }

  /** The number of nodes of the tree rooted at `n`. */
  function Size(n: StoryNode): nat
    decreases n
  {
    match n.options
    case Absent => 1
    case Listed(os) => 1 + SizeOf(os)
  }

  function SizeOf(os: seq<StoryOption>): nat
    decreases os
  {
    if os == [] then 0 else Size(os[0].nextNode) + SizeOf(os[1..])
  }

  /** The number of nodes marked as endings in the tree rooted at `n`. */
  function Endings(n: StoryNode): nat
    decreases n
  {
    (if n.isEnding then 1 else 0) +
    match n.options
    case Absent => 0
    case Listed(os) => EndingsOf(os)
  }

  function EndingsOf(os: seq<StoryOption>): nat
    decreases os
  {
    if os == [] then 0 else Endings(os[0].nextNode) + EndingsOf(os[1..])
  }

  /** Branching rule: a node that is not an ending has 2 or 3 options, an ending has none; at every node. */
  predicate WellBranched(n: StoryNode)
    decreases n
  {
    match n.options
    case Absent => n.isEnding
    case Listed(os) => (if n.isEnding then os == [] else 2 <= |os| <= 3) && AllWellBranched(os)
  }

  predicate AllWellBranched(os: seq<StoryOption>)
    decreases os
  {
    os == [] || (WellBranched(os[0].nextNode) && AllWellBranched(os[1..]))
  }

  /** Some node of the tree rooted at `n` is a winning ending. */
  predicate HasWinningEnding(n: StoryNode)
    decreases n
  {
    (n.isEnding && n.isWinningEnding) ||
    match n.options
    case Absent => false
    case Listed(os) => SomeWinningEnding(os)
  }

  predicate SomeWinningEnding(os: seq<StoryOption>)
    decreases os
  {
    os != [] && (HasWinningEnding(os[0].nextNode) || SomeWinningEnding(os[1..]))
  }

  /**
   * The structure the prompt asks for: 2 to 3 options at every node except endings, 3 to 4
   * levels including the root, and at least one winning ending.
   */
  predicate WellFormed(story: StoryResponse)
  {
    && WellBranched(story.rootNode)
    && 3 <= Height(story.rootNode) <= 4
    && HasWinningEnding(story.rootNode)
  }

  function Pow3(k: nat): (p: nat)
    ensures p >= 1
  {
    if k == 0 then 1 else 3 * Pow3(k - 1)
  }

  lemma {:induction false} Pow3Monotone(a: nat, b: nat)
    requires a <= b
    ensures Pow3(a) <= Pow3(b)
    decreases b
  {
    if a < b { Pow3Monotone(a, b - 1); }
  }

  /** A well-branched tree of height h has at least 2h - 1 nodes (a single spine with one side ending per level). */
  lemma {:induction false} SizeLowerBound(n: StoryNode)
    requires WellBranched(n)
    ensures Size(n) + 1 >= 2 * Height(n)
    decreases n
  {
    match n.options
    case Absent =>
    case Listed(os) =>
      if os != [] {
        SizeOfLowerBound(os);
      }
  }

  lemma {:induction false} SizeOfLowerBound(os: seq<StoryOption>)
    requires os != [] && AllWellBranched(os)
    ensures SizeOf(os) + 2 >= 2 * HeightOf(os) + |os|
    decreases os
  {
    SizeLowerBound(os[0].nextNode);
    SizeAtLeastOne(os[0].nextNode);
    if os[1..] != [] {
      SizeOfLowerBound(os[1..]);
    }
  }

  lemma SizeAtLeastOne(n: StoryNode)
    ensures Size(n) >= 1
  {
  }

  /** A tree with at most 3 options per node and height h has at most (3^h - 1) / 2 nodes. */
  lemma {:induction false} SizeUpperBound(n: StoryNode)
    requires WellBranched(n)
    ensures 2 * Size(n) + 1 <= Pow3(Height(n))
    decreases n
  {
    match n.options
    case Absent =>
    case Listed(os) =>
      var h := HeightOf(os);
      SizeOfUpperBound(os, h);
      assert 2 * SizeOf(os) + |os| <= |os| * Pow3(h);
      assert |os| <= 3;
      assert Pow3(Height(n)) == 3 * Pow3(h);
      assert (3 - |os|) * 1 <= (3 - |os|) * Pow3(h);
  }

  lemma {:induction false} SizeOfUpperBound(os: seq<StoryOption>, h: nat)
    requires AllWellBranched(os) && HeightOf(os) <= h
    ensures 2 * SizeOf(os) + |os| <= |os| * Pow3(h)
    decreases os
  {
    if os != [] {
      var c := os[0].nextNode;
      SizeUpperBound(c);
      Pow3Monotone(Height(c), h);
      SizeOfUpperBound(os[1..], h);
      assert |os| * Pow3(h) == Pow3(h) + |os[1..]| * Pow3(h);
    }
  }

  /** A story of the requested shape has between 5 and 40 nodes. */
  lemma WellFormedSize(story: StoryResponse)
    requires WellFormed(story)
    ensures 5 <= Size(story.rootNode) <= 40
  {
    SizeLowerBound(story.rootNode);
    SizeUpperBound(story.rootNode);
    Pow3Monotone(Height(story.rootNode), 4);
  }

  /**
   * Branching at least two ways means the endings outnumber the other nodes: twice the
   * number of endings is more than the number of nodes.
   */
  lemma {:induction false} EndingsOutnumber(n: StoryNode)
    requires WellBranched(n)
    ensures 2 * Endings(n) >= Size(n) + 1
    decreases n
  {
    match n.options
    case Absent =>
    case Listed(os) =>
      EndingsOfOutnumber(os);
  }

  lemma {:induction false} EndingsOfOutnumber(os: seq<StoryOption>)
    requires AllWellBranched(os)
    ensures 2 * EndingsOf(os) >= SizeOf(os) + |os|
    decreases os
  {
    if os != [] {
      EndingsOutnumber(os[0].nextNode);
      EndingsOfOutnumber(os[1..]);
    }
  }
}
