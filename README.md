# Dialogue engine of a keyword-routed chatbot, in Dafny

The chatbot walks a directed graph of dialogue nodes. Each node has a list
of answers and a list of outgoing (child) edges, and each edge carries
keywords. When a user message arrives, every (child edge, keyword) pair of
the current node is scored by the case-insensitive Levenshtein distance
between the keyword and the message. The chatbot then moves to the child of
a best-scoring edge, or back to the root node when the current node offers
no keyword at all. On arrival it sends one of the new node's answers. The
node holds the chatbot by value and hands it on with C++ move semantics: the
destination's chatbot takes over the image, root node and ChatLogic of the
source, the ChatLogic handle is re-pointed at it, and the source is left
with all four fields null.

Two modules:

- `Levenshtein` (levenshtein.dfy) gives the textbook recursive edit
  distance `Table(a, b, i, j)` between the first `i` characters of `a` and
  the first `j` of `b`. It proves bounds, symmetry, the zero case and the
  two facts the rolling-row update relies on. The method
  `ComputeLevenshteinDistance` keeps the source's single `costs` array of
  length `n + 1`. After the outer iteration for `i`, `costs[k]` is
  `Table(u1, u2, i + 1, k)`. The method is proved equal to the distance of
  the upper-cased strings.
- `Dialogue` (dialogue.dfy) has classes `GraphNode`, `GraphEdge`,
  `ChatBot`, a `ChatLogic` stub and an opaque `Bitmap` handle. It also
  defines the candidate list of a message as a function, and the copy, move
  and routing operations as methods over the classes' fields.

Modelling decisions:

- The node's by-value `ChatBot _chatBot` is a `const chatBot: ChatBot`
  object that the node allocates. Moves copy and null its fields; they do
  not replace the object.
- The by-value parameter of `MoveChatbotHere` is a fresh `ChatBot`. The
  caller move-constructs it from its own chatbot, as in the C++ code.
- Two distinct nodes hold distinct chatbot objects. Each node's
  constructor allocates a fresh chatbot, so nodes built one after another
  have distinct chatbots. A class invariant of one node cannot relate it
  to the other nodes of the graph, though, so there is no graph-wide
  invariant. Instead the handoff methods require distinctness of the
  target node (`GraphNode.CanHandOffTo`).
- `std::sort` is not stable. So routing picks, nondeterministically, some
  candidate of minimal distance (`:|`). The contract does not say which of
  several tied edges wins.
- The time-seeded random answer index is a nondeterministic index in
  `[0, |answers|)`.
- ChatLogic has two fields: the chatbot handle and the log of messages
  sent to the user.
- `ReceiveMessageFromUser` returns a ghost `newNode` so that its contract
  can name the node it moved to. The C++ function returns nothing.

Three behaviours of the code that a reader might not expect:

- `std::sort` is not stable, so no tie-break between candidates of equal
  distance is promised.
- Routing falls back to the root not only when the current node has no
  child edges, but also when its child edges carry no keywords.
- The code seeds a new `std::mt19937` from the clock on each transition,
  and the model keeps only "some valid index".

The nested loops of `ComputeLevenshteinDistance` and of the candidate
collection are split into one method per loop: `NextRow` and
`ScoreKeywords` hold the inner loops. Each method is proved against the
same specification function as the code it comes from.

## Model

| member | source | states |
|---|---|---|
| `Levenshtein.ComputeLevenshteinDistance` | src/chatbot.cpp:196-244 | the result is the textbook edit distance of the upper-cased strings; it is `|s2|` when `s1` is empty and `|s1|` when `s2` is empty; it lies between the length difference and the longer length |
| `Levenshtein.NextRow` | src/chatbot.cpp:217-238 | one outer iteration turns the row holding the distances from the first `i` characters of `s1` into the row for the first `i + 1`, in place |
| `Levenshtein.TableStep` | src/chatbot.cpp:225-236 | the update from `corner`, `upper` and `costs[j]` yields exactly the next entry of the recursive distance |
| `Levenshtein.MatchingLast` | src/chatbot.cpp:226-229 | when the two current characters are equal, the diagonal entry is already the minimum, so copying `corner` is correct |
| `Levenshtein.DropLeft` | src/chatbot.cpp:226-233 | dropping one character of the first string changes the distance by at most one |
| `Levenshtein.DropRight` | src/chatbot.cpp:226-233 | dropping one character of the second string changes the distance by at most one |
| `Levenshtein.TableUpperBound` | src/chatbot.cpp:203-243 | a prefix distance is at most the longer prefix length |
| `Levenshtein.TableLowerBound` | src/chatbot.cpp:203-243 | a prefix distance is at least the difference of the prefix lengths |
| `Levenshtein.EditDistanceBounds` | src/chatbot.cpp:203-243 | `Gap(m, n) <= distance <= Max(m, n)` for whole strings |
| `Levenshtein.TableSymmetric` | src/chatbot.cpp:211-240 | the prefix distance does not depend on which string is first |
| `Levenshtein.EditDistanceSymmetric` | src/chatbot.cpp:211-240 | the edit distance is symmetric |
| `Levenshtein.LevenshteinSymmetric` | src/chatbot.cpp:196-244 | the case-insensitive distance is symmetric |
| `Levenshtein.TableZeroIff` | src/chatbot.cpp:226-228 | a prefix distance is 0 exactly when the two prefixes are the same string |
| `Levenshtein.EditDistanceZeroIff` | src/chatbot.cpp:226-228 | the edit distance is 0 exactly when the strings are equal |
| `Levenshtein.LevenshteinZeroIff` | src/chatbot.cpp:199-228 | the chatbot's distance is 0 exactly when the strings agree up to case; in particular `distance(s, s) == 0` |
| `Levenshtein.TableTriangle` | src/chatbot.cpp:211-240 | the prefix distances satisfy the triangle inequality: going from `a` to `c` costs no more than going through `b` |
| `Levenshtein.LevenshteinTriangle` | src/chatbot.cpp:196-244 | the case-insensitive distance satisfies the triangle inequality |
| `Levenshtein.UpperIdempotent` | src/chatbot.cpp:199-200 | upper-casing keeps the length and a second upper-casing changes nothing |
| `Levenshtein.CaseInsensitive` | src/chatbot.cpp:199-200 | upper-casing either argument first does not change the distance |
| `Dialogue.GraphNode.constructor` | src/graphnode.cpp:5-9 | the node records the given id, starts with no answers and no edges, and holds a fresh chatbot with null image, root node and ChatLogic |
| `Dialogue.GraphNode.AddToken` | src/graphnode.cpp:22-25 | the token is appended after the existing answers; no other field changes |
| `Dialogue.GraphNode.AddEdgeToParentNode` | src/graphnode.cpp:27-30 | the edge is appended to the parent edges; child edges and answers are unchanged |
| `Dialogue.GraphNode.AddEdgeToChildNode` | src/graphnode.cpp:32-36 | the edge is appended to the child edges; no other field changes |
| `Dialogue.GraphNode.GetChildEdgeAtIndex` | src/graphnode.cpp:55-62 | returns the child edge at a valid index, in insertion order |
| `Dialogue.AddThenGetChildEdge` | src/graphnode.cpp:32-36 | after adding an edge, the child-edge count grows by one, the lookup at the old count returns that edge, and earlier indices are unchanged |
| `Dialogue.GraphNode.MoveChatbotHere` | src/graphnode.cpp:40-45 | this node's chatbot takes the passed chatbot's image, root node and ChatLogic; its current node is this node; the ChatLogic handle points at it; one of this node's answers is sent; the passed chatbot is left moved-from |
| `Dialogue.GraphNode.MoveChatbotToNewNode` | src/graphnode.cpp:47-51 | the new node's chatbot carries the source's former image, root node and ChatLogic; its current node is the new node; the handle points at it; one of its answers is sent; when the new node is another node, the source's chatbot is all null |
| `Dialogue.ChatBot.constructor` | src/chatbot.cpp:12-19 | image, ChatLogic and root node start null |
| `Dialogue.ChatBot.WithImage` | src/chatbot.cpp:22-32 | the image is the loaded bitmap; ChatLogic and root node start null |
| `Dialogue.ChatBot.Copy` | src/chatbot.cpp:60-76 | the copy's four fields equal the source's; the ChatLogic handle points at the copy; the source is unchanged |
| `Dialogue.ChatBot.CopyAssign` | src/chatbot.cpp:79-96 | self-assignment changes nothing; otherwise the four fields equal the source's, the handle points at the destination, and the source is unchanged |
| `Dialogue.ChatBot.Move` | src/chatbot.cpp:101-116 | the new chatbot's four fields equal the source's former ones; the handle points at it; the source is left all null |
| `Dialogue.ChatBot.MoveAssign` | src/chatbot.cpp:121-142 | self-move-assignment changes nothing; otherwise the four fields are taken over, the handle points at the destination, and the source is left all null |
| `Dialogue.ChatBot.SetCurrentNode` | src/chatbot.cpp:181-194 | the current node becomes `node`, exactly one message is appended to the ChatLogic log, and it is one of `node`'s answers; requires at least one answer |
| `Dialogue.ChatBot.ReceiveMessageFromUser` | src/chatbot.cpp:147-179 | when the current node has a keyword, the chatbot moves to the child of an edge with a keyword of minimal distance to the message; otherwise it moves to the root; it keeps its image, root node and ChatLogic, the handle follows it, one answer of the new node is sent, and a chatbot that left its node is all null; the chatbots of the other child nodes and of the root are unchanged; only the nodes it may move to must have an answer |
| `Dialogue.CollectCandidates` | src/chatbot.cpp:150-161 | the collected list is exactly one candidate per (child edge, keyword) pair, in edge then keyword order, scored by the distance |
| `Dialogue.ScoreKeywords` | src/chatbot.cpp:156-160 | one candidate per keyword of an edge, in keyword order |
| `Dialogue.KeywordCandidatesExact` | src/chatbot.cpp:156-160 | the k-th candidate of an edge carries that edge and the distance of its k-th keyword |
| `Dialogue.CandidatesSound` | src/chatbot.cpp:153-161 | every candidate's edge is a child edge and its score is the distance of one of that edge's keywords |
| `Dialogue.CandidatesComplete` | src/chatbot.cpp:153-161 | every (child edge, keyword) pair appears among the candidates |
| `Dialogue.CandidatesEmpty` | src/chatbot.cpp:165-175 | there are no candidates exactly when no child edge has a keyword |
| `Dialogue.MinIndex` | src/chatbot.cpp:165-169 | a non-empty candidate list has an entry of minimal distance, which is what the sort puts first; the index returned is the first such entry |
| `Dialogue.MinimalIsBest` | src/chatbot.cpp:165-169 | the child of a minimal candidate is a best target: its edge has a keyword whose distance is minimal over all pairs |

## Left out

- All console logging: it is output only.
- Loading the `wxBitmap` from a file: the bitmap is a constructor
  parameter of `ChatBot.WithImage`. The destructor's image handling is
  left out too, since its `delete` is commented out.
- The time-seeded `std::mt19937` and `uniform_int_distribution`: replaced
  by a nondeterministic index in `[0, |answers|)`.
- `ChatLogic::SendMessageToUser` and `ChatLogic::SetChatbotHandle`: their
  code is not part of this model. They are stubbed as a message log and a
  handle field.
- The order `std::sort` leaves the candidates in, and which of several
  tied candidates comes first.
- `std::unique_ptr` lifetimes and deallocation, including the destruction
  of the by-value chatbot parameter: ownership is list membership.
- Graph loading, the wxWidgets GUI and the rest of GraphEdge: none of it
  is part of this model. GraphEdge keeps only `keywords` and `childNode`.
- `Levenshtein.ComputeLevenshteinDistance`: the result is a `nat`. It
  does not model the narrowing of `size_t` to `int`, which matters only
  for strings longer than 2^31 characters.
- `Levenshtein.ToUpper`: this is `toupper` in the "C" locale on ASCII
  letters. Locale-dependent mappings and negative `char` values are not
  modelled.
- `Levenshtein.LevenshteinDistance`: strings are sequences of characters,
  while a C++ `std::string` is a sequence of bytes. On non-ASCII text the
  code counts UTF-8 bytes and the model counts code points: for `"é"`
  against `""` the code gives 2 and the model 1.
- `Dialogue.ChatBot.constructor`: the C++ constructor leaves
  `_currentNode` uninitialised, and the contract says nothing about it.
- `Dialogue.ChatBot.WithImage`: the same holds for `ChatBot(std::string)`,
  which also leaves `_currentNode` uninitialised.
- The concrete values `distance("kitten", "sitting") == 3` and similar:
  they would need the recursion to be unfolded by hand.
