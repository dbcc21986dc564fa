/** The dialogue graph and the chatbot that is handed from node to node:
    GraphNode and ChatBot as classes over their mutable fields, a minimal
    GraphEdge, and ChatLogic reduced to the two things the core uses of it. */
module Dialogue {
  import opened Levenshtein

  /** An opaque handle for the chatbot's avatar bitmap; the model only copies
      it or nulls it. */
  class Bitmap {
    constructor ()
    {
    }
  }

  /** The part of ChatLogic the chatbot talks to: the handle of the chatbot
      that currently answers, and the log of the messages sent to the user. */
  class ChatLogic {
    var chatBot: ChatBot?
    var messages: seq<string>

    constructor ()
      ensures chatBot == null && messages == []
    {
      chatBot := null;
      messages := [];
    }

    method SetChatbotHandle(bot: ChatBot)
      modifies this`chatBot
      ensures chatBot == bot
    {
      chatBot := bot;
    }

    method SendMessageToUser(message: string)
      modifies this`messages
      ensures messages == old(messages) + [message]
    {
      messages := messages + [message];
    }
  }

  /** An edge of the dialogue graph, as far as routing reads it. */
  class GraphEdge {
    var keywords: seq<string>
    var childNode: GraphNode

    constructor (keywords: seq<string>, childNode: GraphNode)
      ensures this.keywords == keywords && this.childNode == childNode
    {
      this.keywords := keywords;
      this.childNode := childNode;
    }
  }

  /** `log` is `before` followed by exactly one more message, and that
      message is one of `answers`. */
  ghost predicate SentOneOf(before: seq<string>, log: seq<string>, answers: seq<string>)
  {
    |log| == |before| + 1 && log[..|before|] == before && log[|before|] in answers
  }

  class GraphNode {
    var id: int
    var answers: seq<string>
    var parentEdges: seq<GraphEdge>
    var childEdges: seq<GraphEdge>
    /** The chatbot held by value: the object stays, its fields are moved. */
    const chatBot: ChatBot

    constructor (id: int)
      ensures this.id == id
      ensures answers == [] && parentEdges == [] && childEdges == []
      ensures fresh(chatBot) && chatBot.image == null && chatBot.rootNode == null && chatBot.chatLogic == null
    {
      this.id := id;
      answers := [];
      parentEdges := [];
      childEdges := [];
      chatBot := new ChatBot();
    }

    method AddToken(token: string)
      modifies this`answers
      ensures answers == old(answers) + [token]
    {
      answers := answers + [token];
    }

    method AddEdgeToParentNode(edge: GraphEdge)
      modifies this`parentEdges
      ensures parentEdges == old(parentEdges) + [edge]
    {
      parentEdges := parentEdges + [edge];
    }

    method AddEdgeToChildNode(edge: GraphEdge)
      modifies this`childEdges
      ensures childEdges == old(childEdges) + [edge]
    {
      childEdges := childEdges + [edge];
    }

    method GetChildEdgeAtIndex(index: int) returns (edge: GraphEdge)
      requires 0 <= index < |childEdges|
      ensures edge == childEdges[index]
    {
      edge := childEdges[index];
    }

    /** The chatbot of this node may be handed to `target`: `target` has an
        answer to send, and it is this node or holds a chatbot object of its
        own. */
    ghost predicate CanHandOffTo(target: GraphNode)
      reads this, target
    {
      |target.answers| > 0 && (target == this || target.chatBot != chatBot)
    }

    /** `chatbot` is the by-value parameter, a ChatBot object distinct from
        the one this node holds. */
    method MoveChatbotHere(chatbot: ChatBot)
      requires chatbot != chatBot && chatbot.chatLogic != null
      requires |answers| > 0
      modifies chatBot, chatbot, chatbot.chatLogic
      ensures chatBot.image == old(chatbot.image)
      ensures chatBot.rootNode == old(chatbot.rootNode)
      ensures chatBot.chatLogic == old(chatbot.chatLogic)
      ensures chatBot.currentNode == this
      ensures chatBot.chatLogic.chatBot == chatBot
      ensures SentOneOf(old(chatbot.chatLogic.messages), chatBot.chatLogic.messages, answers)
      ensures chatbot.MovedFrom()
    {
      chatBot.MoveAssign(chatbot);
      chatBot.SetCurrentNode(this);
    }

    method MoveChatbotToNewNode(newNode: GraphNode)
      requires chatBot.chatLogic != null
      requires CanHandOffTo(newNode)
      modifies chatBot, newNode.chatBot, chatBot.chatLogic
      ensures newNode.chatBot.image == old(chatBot.image)
      ensures newNode.chatBot.rootNode == old(chatBot.rootNode)
      ensures newNode.chatBot.chatLogic == old(chatBot.chatLogic)
      ensures newNode.chatBot.currentNode == newNode
      ensures newNode.chatBot.chatLogic.chatBot == newNode.chatBot
      ensures SentOneOf(old(chatBot.chatLogic.messages), newNode.chatBot.chatLogic.messages, newNode.answers)
      ensures newNode != this ==> chatBot.MovedFrom()
    {
      // the by-value parameter of MoveChatbotHere, move-constructed from ours
      var parameter := new ChatBot.Move(chatBot);
      newNode.MoveChatbotHere(parameter);
    }
  }

  /** Adding a child edge and reading it back at the old count. */
  method AddThenGetChildEdge(node: GraphNode, edge: GraphEdge) returns (got: GraphEdge)
    modifies node`childEdges
    ensures |node.childEdges| == |old(node.childEdges)| + 1
    ensures got == edge
    ensures forall k :: 0 <= k < |old(node.childEdges)| ==> node.childEdges[k] == old(node.childEdges[k])
  {
    var count := |node.childEdges|;
    node.AddEdgeToChildNode(edge);
    got := node.GetChildEdgeAtIndex(count);
  }

  // -----------------------------------------------------------------------
  // Routing: the (edge, keyword) candidates and the best of them

  datatype EdgeDist = EdgeDist(edge: GraphEdge, dist: nat)

  /** One candidate per keyword of `edge`, in keyword order. */
  function KeywordCandidates(edge: GraphEdge, keywords: seq<string>, message: string): seq<EdgeDist>
  {
    if keywords == [] then []
    else KeywordCandidates(edge, keywords[..|keywords| - 1], message)
         + [EdgeDist(edge, LevenshteinDistance(keywords[|keywords| - 1], message))]
  }

  /** One candidate per (edge, keyword) pair, in edge then keyword order. */
  function Candidates(edges: seq<GraphEdge>, message: string): seq<EdgeDist>
    reads edges
  {
    if edges == [] then []
    else
      var e := edges[|edges| - 1];
      Candidates(edges[..|edges| - 1], message) + KeywordCandidates(e, e.keywords, message)
  }

  predicate IsMinimal(ds: seq<EdgeDist>, k: int)
  {
    0 <= k < |ds| && forall j :: 0 <= j < |ds| ==> ds[k].dist <= ds[j].dist
  }

  /** The first candidate of minimal distance. */
  ghost function MinIndex(ds: seq<EdgeDist>): (k: nat)
    requires |ds| > 0
    ensures IsMinimal(ds, k)
    ensures forall j :: 0 <= j < k ==> ds[j].dist > ds[k].dist
  {
    if |ds| == 1 then 0
    else
      var k := MinIndex(ds[..|ds| - 1]);
      if ds[|ds| - 1].dist < ds[k].dist then |ds| - 1 else k
  }

  ghost predicate NoKeywords(edges: seq<GraphEdge>)
    reads edges
  {
    forall e :: e in edges ==> e.keywords == []
  }

  /** `target` is the child of an edge with a keyword whose distance to
      `message` is minimal over all (edge, keyword) pairs of `edges`. */
  ghost predicate IsBestTarget(edges: seq<GraphEdge>, message: string, target: GraphNode)
    reads edges
  {
    exists e, kw :: e in edges && kw in e.keywords && e.childNode == target &&
      forall e', kw' :: e' in edges && kw' in e'.keywords ==>
        LevenshteinDistance(kw, message) <= LevenshteinDistance(kw', message)
  }

  lemma {:induction false} KeywordCandidatesExact(edge: GraphEdge, keywords: seq<string>, message: string)
    ensures |KeywordCandidates(edge, keywords, message)| == |keywords|
    ensures forall k :: 0 <= k < |keywords| ==>
      KeywordCandidates(edge, keywords, message)[k] == EdgeDist(edge, LevenshteinDistance(keywords[k], message))
  {
    if keywords != [] {
      KeywordCandidatesExact(edge, keywords[..|keywords| - 1], message);
    }
  }

  /** Every candidate comes from a keyword of one of the edges. */
  lemma {:induction false} CandidatesSound(edges: seq<GraphEdge>, message: string, c: EdgeDist)
    requires c in Candidates(edges, message)
    ensures c.edge in edges
    ensures exists kw :: kw in c.edge.keywords && c.dist == LevenshteinDistance(kw, message)
  {
    var last := edges[|edges| - 1];
    var front := edges[..|edges| - 1];
    if c in Candidates(front, message) {
      CandidatesSound(front, message, c);
      assert c.edge in edges;
    } else {
      KeywordCandidatesExact(last, last.keywords, message);
      var ks := KeywordCandidates(last, last.keywords, message);
      var k :| 0 <= k < |ks| && ks[k] == c;
      assert last.keywords[k] in c.edge.keywords;
    }
  }

  /** Every (edge, keyword) pair is a candidate. */
  lemma {:induction false} CandidatesComplete(edges: seq<GraphEdge>, message: string, e: GraphEdge, kw: string)
    requires e in edges && kw in e.keywords
    ensures EdgeDist(e, LevenshteinDistance(kw, message)) in Candidates(edges, message)
  {
    var last := edges[|edges| - 1];
    var front := edges[..|edges| - 1];
    if e in front {
      CandidatesComplete(front, message, e, kw);
    } else {
      assert e == last;
      KeywordCandidatesExact(last, last.keywords, message);
      var k :| 0 <= k < |last.keywords| && last.keywords[k] == kw;
      assert KeywordCandidates(last, last.keywords, message)[k] == EdgeDist(e, LevenshteinDistance(kw, message));
    }
  }

  /** There is no candidate exactly when no edge has a keyword. */
  lemma {:induction false} CandidatesEmpty(edges: seq<GraphEdge>, message: string)
    ensures Candidates(edges, message) == [] <==> NoKeywords(edges)
  {
    if Candidates(edges, message) != [] {
      CandidatesSound(edges, message, Candidates(edges, message)[0]);
    }
    if !NoKeywords(edges) {
      var e :| e in edges && e.keywords != [];
      CandidatesComplete(edges, message, e, e.keywords[0]);
    }
  }

  /** A candidate of minimal distance names a best target. */
  lemma MinimalIsBest(edges: seq<GraphEdge>, message: string, ds: seq<EdgeDist>, k: int)
    requires ds == Candidates(edges, message) && IsMinimal(ds, k)
    ensures ds[k].edge in edges && ds[k].edge.keywords != []
    ensures IsBestTarget(edges, message, ds[k].edge.childNode)
  {
    CandidatesSound(edges, message, ds[k]);
    var kw :| kw in ds[k].edge.keywords && ds[k].dist == LevenshteinDistance(kw, message);
    forall e', kw' | e' in edges && kw' in e'.keywords
      ensures LevenshteinDistance(kw, message) <= LevenshteinDistance(kw', message)
    {
      CandidatesComplete(edges, message, e', kw');
      var j :| 0 <= j < |ds| && ds[j] == EdgeDist(e', LevenshteinDistance(kw', message));
    }
  }

  /** The first half of ChatBot::ReceiveMessageFromUser: one candidate per
      (child edge, keyword) pair of `node`, scored by the distance between
      the keyword and the message, in edge then keyword order. */
  method CollectCandidates(node: GraphNode, message: string) returns (levDists: seq<EdgeDist>)
    ensures levDists == Candidates(node.childEdges, message)
  {
    ghost var edges := node.childEdges;
    levDists := [];
    var i := 0;
    while i < |node.childEdges|
      invariant i <= |edges|
      invariant levDists == Candidates(edges[..i], message)
    {
      var edge := node.GetChildEdgeAtIndex(i);
      assert edges[..i + 1][..i] == edges[..i];
      var scored := ScoreKeywords(edge, edge.keywords, message);
      levDists := levDists + scored;
      i := i + 1;
    }
    assert edges[..i] == edges;
  }

  /** The inner loop of the collection: one candidate per keyword of `edge`. */
  method ScoreKeywords(edge: GraphEdge, keywords: seq<string>, message: string) returns (levDists: seq<EdgeDist>)
    ensures levDists == KeywordCandidates(edge, keywords, message)
  {
    levDists := [];
    var j := 0;
    while j < |keywords|
      invariant j <= |keywords|
      invariant levDists == KeywordCandidates(edge, keywords[..j], message)
    {
      var d := ComputeLevenshteinDistance(keywords[j], message);
      assert keywords[..j + 1][..j] == keywords[..j];
      levDists := levDists + [EdgeDist(edge, d)];
      j := j + 1;
    }
    assert keywords[..j] == keywords;
  }

  // -----------------------------------------------------------------------
  // The chatbot

  class ChatBot {
    var image: Bitmap?
    var currentNode: GraphNode?
    var rootNode: GraphNode?
    var chatLogic: ChatLogic?

    /** The state a move leaves behind. */
    ghost predicate MovedFrom()
      reads this
    {
      image == null && currentNode == null && rootNode == null && chatLogic == null
    }

    /** The constructor without an image; the current node is left unset. */
    constructor ()
      ensures image == null && chatLogic == null && rootNode == null
    {
      image := null;
      chatLogic := null;
      rootNode := null;
    }

    /** The constructor that loads an image; the loaded bitmap is a parameter. */
    constructor WithImage(bitmap: Bitmap)
      ensures image == bitmap && chatLogic == null && rootNode == null
    {
      image := bitmap;
      chatLogic := null;
      rootNode := null;
    }

    /** Copy constructor. */
    constructor Copy(src: ChatBot)
      requires src.chatLogic != null
      modifies src.chatLogic
      ensures image == src.image && currentNode == src.currentNode
      ensures rootNode == src.rootNode && chatLogic == src.chatLogic
      ensures chatLogic.chatBot == this && chatLogic.messages == old(src.chatLogic.messages)
      ensures unchanged(src)
    {
      image := src.image;
      currentNode := src.currentNode;
      rootNode := src.rootNode;
      chatLogic := src.chatLogic;
      new;
      chatLogic.SetChatbotHandle(this);
    }

    /** Copy assignment. */
    method CopyAssign(src: ChatBot)
      requires this == src || src.chatLogic != null
      modifies this, src.chatLogic
      ensures this == src ==> unchanged(this) && (old(chatLogic) != null ==> unchanged(old(chatLogic)))
      ensures this != src ==>
        image == old(src.image) && currentNode == old(src.currentNode) &&
        rootNode == old(src.rootNode) && chatLogic == old(src.chatLogic) &&
        chatLogic.chatBot == this && chatLogic.messages == old(src.chatLogic.messages) &&
        unchanged(src)
    {
      if this == src {
        return;
      }
      image := src.image;
      currentNode := src.currentNode;
      rootNode := src.rootNode;
      chatLogic := src.chatLogic;
      chatLogic.SetChatbotHandle(this);
    }

    /** Move constructor. */
    constructor Move(src: ChatBot)
      requires src.chatLogic != null
      modifies src, src.chatLogic
      ensures image == old(src.image) && currentNode == old(src.currentNode)
      ensures rootNode == old(src.rootNode) && chatLogic == old(src.chatLogic)
      ensures chatLogic.chatBot == this && chatLogic.messages == old(src.chatLogic.messages)
      ensures src.MovedFrom()
    {
      image := src.image;
      currentNode := src.currentNode;
      rootNode := src.rootNode;
      chatLogic := src.chatLogic;
      new;
      chatLogic.SetChatbotHandle(this);
      src.image := null;
      src.currentNode := null;
      src.rootNode := null;
      src.chatLogic := null;
    }

    /** Move assignment. */
    method MoveAssign(src: ChatBot)
      requires this == src || src.chatLogic != null
      modifies this, src, src.chatLogic
      ensures this == src ==> unchanged(this) && (old(chatLogic) != null ==> unchanged(old(chatLogic)))
      ensures this != src ==>
        image == old(src.image) && currentNode == old(src.currentNode) &&
        rootNode == old(src.rootNode) && chatLogic == old(src.chatLogic) &&
        chatLogic.chatBot == this && chatLogic.messages == old(src.chatLogic.messages) &&
        src.MovedFrom()
    {
      if this == src {
        return;
      }
      image := src.image;
      currentNode := src.currentNode;
      rootNode := src.rootNode;
      chatLogic := src.chatLogic;
      chatLogic.SetChatbotHandle(this);
      src.image := null;
      src.currentNode := null;
      src.rootNode := null;
      src.chatLogic := null;
    }

    /** Records `node` and sends one of its answers, picked by an index in
        [0, |answers|) that the model leaves unspecified. */
    method SetCurrentNode(node: GraphNode)
      requires chatLogic != null && |node.answers| > 0
      modifies this`currentNode, chatLogic`messages
      ensures currentNode == node
      ensures SentOneOf(old(chatLogic.messages), chatLogic.messages, node.answers)
    {
      currentNode := node;
      var answers := currentNode.answers;
      var pick :| 0 <= pick < |answers|;
      var answer := answers[pick];
      chatLogic.SendMessageToUser(answer);
    }

    /** Routes `message` along the best-matching edge of the current node, or
        back to the root when the node offers no keyword at all. The node the
        chatbot ends up in is returned as `newNode`. */
    method ReceiveMessageFromUser(message: string) returns (ghost newNode: GraphNode)
      requires currentNode != null && currentNode.chatBot == this && chatLogic != null
      requires forall n: GraphNode :: IsBestTarget(currentNode.childEdges, message, n) ==> currentNode.CanHandOffTo(n)
      requires NoKeywords(currentNode.childEdges) ==> rootNode != null && currentNode.CanHandOffTo(rootNode)
      modifies this, chatLogic, set e | e in currentNode.childEdges :: e.childNode.chatBot
      modifies if rootNode == null then {} else {rootNode.chatBot}
      ensures !NoKeywords(old(currentNode.childEdges)) ==> IsBestTarget(old(currentNode.childEdges), message, newNode)
      ensures NoKeywords(old(currentNode.childEdges)) ==> newNode == old(rootNode)
      ensures newNode.chatBot.currentNode == newNode
      ensures newNode.chatBot.image == old(image) && newNode.chatBot.rootNode == old(rootNode)
      ensures newNode.chatBot.chatLogic == old(chatLogic) && old(chatLogic).chatBot == newNode.chatBot
      ensures SentOneOf(old(chatLogic.messages), old(chatLogic).messages, newNode.answers)
      ensures newNode != old(currentNode) ==> MovedFrom()
      ensures forall e :: e in old(currentNode.childEdges) && e.childNode.chatBot != this && e.childNode.chatBot != newNode.chatBot ==>
                unchanged(e.childNode.chatBot)
      ensures old(rootNode) != null && old(rootNode).chatBot != this && old(rootNode).chatBot != newNode.chatBot ==>
                unchanged(old(rootNode).chatBot)
    {
      var node := currentNode;
      ghost var edges := node.childEdges;
      var levDists := CollectCandidates(node, message);
      CandidatesEmpty(edges, message);

      var target: GraphNode;
      if |levDists| > 0 {
        // std::sort by distance: the first entry is some candidate of
        // minimal distance, which one among ties is unspecified
        ghost var first := MinIndex(levDists);
        var best :| IsMinimal(levDists, best);
        MinimalIsBest(edges, message, levDists, best);
        target := levDists[best].edge.childNode;
      } else {
        target := rootNode;
      }
      newNode := target;
      node.MoveChatbotToNewNode(target);
    }
  }
}
