/**
 * Tool cards of the chat page (static/script.js): the icon chosen for a tool
 * name in createToolCard, and the registry of cards keyed by tool_call_id that
 * createToolCardManager keeps for one streamed reply.
 */
module ToolCards {
  import opened Wrappers

  /** A Font Awesome icon class and the colour it is drawn in ("" = the stylesheet's colour). */
  datatype Icon = Icon(iconClass: string, color: string)

  /** `s.includes(sub)` */
  predicate Contains(s: string, sub: string)
    decreases |s|
  {
    sub <= s || (s != [] && Contains(s[1..], sub))
  }

  /** The icon createToolCard draws for a tool name: the first keyword group that matches wins. */
  function ToolIcon(toolName: string): Icon
  {
    if Contains(toolName, "search") || Contains(toolName, "find") then Icon("fa-search", "#4285f4")
    else if Contains(toolName, "web") || Contains(toolName, "browser") then Icon("fa-globe", "#34a853")
    else if Contains(toolName, "file") || Contains(toolName, "read") || Contains(toolName, "write") then Icon("fa-file-alt", "#ea4335")
    else if Contains(toolName, "terminal") || Contains(toolName, "run") || Contains(toolName, "execute") then Icon("fa-terminal", "#333333")
    else if Contains(toolName, "edit") || Contains(toolName, "modify") then Icon("fa-edit", "#fbbc05")
    else if Contains(toolName, "list") || Contains(toolName, "directory") then Icon("fa-folder-open", "#4285f4")
    else if Contains(toolName, "grep") || Contains(toolName, "code_search") then Icon("fa-code", "#9c27b0")
    else if Contains(toolName, "delete") || Contains(toolName, "remove") then Icon("fa-trash-alt", "#ea4335")
    else DefaultIcon
  }

  const DefaultIcon := Icon("fa-wrench", "")

  /** A keyword group and the icon it selects. */
  datatype IconRule = IconRule(keywords: seq<string>, icon: Icon)

  /** The keyword groups in the order createToolCard tests them. */
  const IconRules: seq<IconRule> := [
    IconRule(["search", "find"], Icon("fa-search", "#4285f4")),
    IconRule(["web", "browser"], Icon("fa-globe", "#34a853")),
    IconRule(["file", "read", "write"], Icon("fa-file-alt", "#ea4335")),
    IconRule(["terminal", "run", "execute"], Icon("fa-terminal", "#333333")),
    IconRule(["edit", "modify"], Icon("fa-edit", "#fbbc05")),
    IconRule(["list", "directory"], Icon("fa-folder-open", "#4285f4")),
    IconRule(["grep", "code_search"], Icon("fa-code", "#9c27b0")),
    IconRule(["delete", "remove"], Icon("fa-trash-alt", "#ea4335"))
  ]

  predicate MatchesAny(name: string, keywords: seq<string>) {
    exists k :: 0 <= k < |keywords| && Contains(name, keywords[k])
  }

  /** Reference reading of the rule table: the icon of the first group with a keyword in the name. */
  function FirstMatch(rules: seq<IconRule>, name: string): Icon
  {
    if rules == [] then DefaultIcon
    else if MatchesAny(name, rules[0].keywords) then rules[0].icon
    else FirstMatch(rules[1..], name)
  }

  lemma MatchesAnyPair(name: string, x: string, y: string)
    ensures MatchesAny(name, [x, y]) <==> Contains(name, x) || Contains(name, y)
  {
    if Contains(name, x) { assert [x, y][0] == x; }
    if Contains(name, y) { assert [x, y][1] == y; }
  }

  lemma MatchesAnyTriple(name: string, x: string, y: string, z: string)
    ensures MatchesAny(name, [x, y, z]) <==> Contains(name, x) || Contains(name, y) || Contains(name, z)
  {
    if Contains(name, x) { assert [x, y, z][0] == x; }
    if Contains(name, y) { assert [x, y, z][1] == y; }
    if Contains(name, z) { assert [x, y, z][2] == z; }
  }

  /** The if-chain of createToolCard is exactly the first-match reading of the rule table. */
  lemma ToolIconIsFirstMatch(name: string)
    ensures ToolIcon(name) == FirstMatch(IconRules, name)
  {
    var r := IconRules;
    MatchesAnyPair(name, "search", "find");
    MatchesAnyPair(name, "web", "browser");
    MatchesAnyTriple(name, "file", "read", "write");
    MatchesAnyTriple(name, "terminal", "run", "execute");
    FirstMatchStep(r, 0, name);
    FirstMatchStep(r, 1, name);
    FirstMatchStep(r, 2, name);
    FirstMatchStep(r, 3, name);
    LaterRulesMatch(name);
    assert r[0..] == r;
  }

  /** The last four groups of the table read as the tail of createToolCard's if-chain. */
  lemma LaterRulesMatch(name: string)
    ensures FirstMatch(IconRules[4..], name) ==
      if Contains(name, "edit") || Contains(name, "modify") then Icon("fa-edit", "#fbbc05")
      else if Contains(name, "list") || Contains(name, "directory") then Icon("fa-folder-open", "#4285f4")
      else if Contains(name, "grep") || Contains(name, "code_search") then Icon("fa-code", "#9c27b0")
      else if Contains(name, "delete") || Contains(name, "remove") then Icon("fa-trash-alt", "#ea4335")
      else DefaultIcon
  {
    var r := IconRules;
    MatchesAnyPair(name, "edit", "modify");
    MatchesAnyPair(name, "list", "directory");
    MatchesAnyPair(name, "grep", "code_search");
    MatchesAnyPair(name, "delete", "remove");
    FirstMatchStep(r, 4, name);
    FirstMatchStep(r, 5, name);
    FirstMatchStep(r, 6, name);
    FirstMatchStep(r, 7, name);
    assert r[8..] == [];
  }

  /** One step of the first-match reading, at group `k`. */
  lemma FirstMatchStep(rules: seq<IconRule>, k: nat, name: string)
    requires k < |rules|
    ensures FirstMatch(rules[k..], name) ==
      if MatchesAny(name, rules[k].keywords) then rules[k].icon else FirstMatch(rules[k + 1..], name)
  {
    assert rules[k..][1..] == rules[k + 1..];
  }

  /** The wrench is drawn exactly when no keyword of any group occurs in the name. */
  lemma {:induction false} DefaultIconIffNoKeyword(rules: seq<IconRule>, name: string)
    requires forall i :: 0 <= i < |rules| ==> rules[i].icon != DefaultIcon
    ensures FirstMatch(rules, name) == DefaultIcon <==>
      forall i :: 0 <= i < |rules| ==> !MatchesAny(name, rules[i].keywords)
  {
    if rules != [] {
      DefaultIconIffNoKeyword(rules[1..], name);
      assert forall i :: 1 <= i < |rules| ==> rules[i] == rules[1..][i - 1];
    }
  }

  /** createToolCard falls back to the wrench exactly for names holding none of the keywords. */
  lemma WrenchIffNoKeyword(name: string)
    ensures ToolIcon(name) == DefaultIcon <==>
      forall i :: 0 <= i < |IconRules| ==> !MatchesAny(name, IconRules[i].keywords)
  {
    ToolIconIsFirstMatch(name);
    DefaultIconIffNoKeyword(IconRules, name);
  }

  /** The display state of one tool invocation. */
  datatype Card = Card(toolName: string, icon: Icon, args: string, result: Option<string>, expanded: bool)

  /** createToolCard: collapsed, no result yet, arguments shown. */
  function NewCard(toolName: string, args: string): (c: Card)
    ensures c.toolName == toolName && c.args == args && c.result == None && !c.expanded
    ensures c.icon == FirstMatch(IconRules, toolName)
  {
    ToolIconIsFirstMatch(toolName);
    Card(toolName, ToolIcon(toolName), args, None, false)
  }

  /**
   * The registry after getOrCreateCard: a card is added only for a present id
   * (the empty string stands for a missing one) that has no card yet, and only
   * when there is a container to put it in.
   */
  function AfterGetOrCreate(cards: map<string, Card>, toolName: string, args: string,
                            toolCallId: string, hasContainer: bool): (r: map<string, Card>)
    ensures r.Keys == if toolCallId != "" && hasContainer then cards.Keys + {toolCallId} else cards.Keys
    ensures forall id :: id in cards ==> r[id] == cards[id]
    ensures toolCallId in r && toolCallId !in cards ==> r[toolCallId] == NewCard(toolName, args)
  {
    if toolCallId == "" || toolCallId in cards || !hasContainer then cards
    else cards[toolCallId := NewCard(toolName, args)]
  }

  /** What getOrCreateCard returns: null for a missing id, otherwise the card now stored, if any. */
  function GetOrCreateReturn(cards: map<string, Card>, toolName: string, args: string,
                             toolCallId: string, hasContainer: bool): (c: Option<Card>)
    ensures toolCallId == "" ==> c == None
    ensures toolCallId != "" && toolCallId in cards ==> c == Some(cards[toolCallId])
    ensures toolCallId != "" && toolCallId !in cards ==>
      c == (if hasContainer then Some(NewCard(toolName, args)) else None)
  {
    var after := AfterGetOrCreate(cards, toolName, args, toolCallId, hasContainer);
    if toolCallId == "" || toolCallId !in after then None else Some(after[toolCallId])
  }

  /** updateCardResult: the known card records the result and is expanded; an unknown id changes nothing. */
  function AfterResult(cards: map<string, Card>, toolCallId: string, result: string): (r: map<string, Card>)
    ensures r.Keys == cards.Keys
    ensures forall id :: id in cards && id != toolCallId ==> r[id] == cards[id]
    ensures toolCallId in cards ==>
      r[toolCallId] == cards[toolCallId].(result := Some(result), expanded := true)
  {
    if toolCallId in cards then cards[toolCallId := cards[toolCallId].(result := Some(result), expanded := true)]
    else cards
  }

  /** updateCardArgs: the known card shows the new arguments; an unknown id changes nothing. */
  function AfterArgs(cards: map<string, Card>, toolCallId: string, args: string): (r: map<string, Card>)
    ensures r.Keys == cards.Keys
    ensures forall id :: id in cards && id != toolCallId ==> r[id] == cards[id]
    ensures toolCallId in cards ==> r[toolCallId] == cards[toolCallId].(args := args)
  {
    if toolCallId in cards then cards[toolCallId := cards[toolCallId].(args := args)] else cards
  }

  /** Creating twice under one id returns the first card: the second call's name and arguments are ignored. */
  lemma FirstWriterWins(cards: map<string, Card>, id: string, name1: string, args1: string,
                        name2: string, args2: string)
    requires id != ""
    requires id !in cards
    ensures var once := AfterGetOrCreate(cards, name1, args1, id, true);
      && AfterGetOrCreate(once, name2, args2, id, true) == once
      && GetOrCreateReturn(once, name2, args2, id, true) == Some(NewCard(name1, args1))
  {
  }

  /** The card registry of one streamed reply (createToolCardManager). */
  class ToolCardRegistry {
    var cards: map<string, Card>

    constructor ()
      ensures cards == map[]
    {
      cards := map[];
    }

    /** getOrCreateCard(toolName, args, toolCallId, container); `hasContainer` says whether a container was passed. */
    method GetOrCreateCard(toolName: string, args: string, toolCallId: string, hasContainer: bool)
      returns (card: Option<Card>)
      modifies this
      ensures cards == AfterGetOrCreate(old(cards), toolName, args, toolCallId, hasContainer)
      ensures card == GetOrCreateReturn(old(cards), toolName, args, toolCallId, hasContainer)
    {
      if toolCallId == "" {
        return None;   // console.error: missing tool_call_id
      }
      if toolCallId !in cards {
        var c := NewCard(toolName, args);
        if hasContainer {
          cards := cards[toolCallId := c];
        }
      }
      card := if toolCallId in cards then Some(cards[toolCallId]) else None;
    }

    method UpdateCardArgs(toolCallId: string, args: string)
      modifies this
      ensures cards == AfterArgs(old(cards), toolCallId, args)
    {
      if toolCallId in cards {
        cards := cards[toolCallId := cards[toolCallId].(args := args)];
      }
    }

    /** updateCardResult; `warned` is the console warning for an id that has no card. */
    method UpdateCardResult(toolCallId: string, result: string) returns (warned: bool)
      modifies this
      ensures cards == AfterResult(old(cards), toolCallId, result)
      ensures warned <==> toolCallId !in old(cards)
    {
      if toolCallId in cards {
        cards := cards[toolCallId := cards[toolCallId].(result := Some(result), expanded := true)];
        warned := false;
      } else {
        warned := true;
      }
    }

    method Clear()
      modifies this
      ensures cards == map[]
    {
      cards := map[];
    }
  }
}
