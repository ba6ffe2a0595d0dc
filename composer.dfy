/** The post composer (components/PostGenerator.tsx): the multi-platform
    selection, the map of generated posts keyed by platform, and the
    handlers that fill, translate and clear it. The generation and
    translation services are not modelled: what they answered is a
    parameter, with `None` for a call that failed. */
module Composer {
  import opened JsText
  import opened Records

  // ---------------------------------------------------------------------------
  // The platform selection

  /** No platform occurs twice. */
  predicate NoDup(sel: seq<Platform>) {
    forall i, j :: 0 <= i < j < |sel| ==> sel[i] != sel[j]
  }

  /** The supported platforms in the order they are declared
      (constants.ts:4-13); "Select All" sets the selection to this list. */
  const AllPlatforms: seq<Platform> := [Instagram, Twitter, LinkedIn, Telegram, ArtStation, TikTok, Pinterest, Threads]

  /** Select-all picks every platform exactly once. */
  lemma AllPlatformsComplete()
    ensures forall p: Platform :: p in AllPlatforms
    ensures NoDup(AllPlatforms) && |AllPlatforms| == 8
  {
    forall p: Platform
      ensures p in AllPlatforms
    {
      match p
      case Instagram => assert AllPlatforms[0] == p;
      case Twitter => assert AllPlatforms[1] == p;
      case LinkedIn => assert AllPlatforms[2] == p;
      case Telegram => assert AllPlatforms[3] == p;
      case ArtStation => assert AllPlatforms[4] == p;
      case TikTok => assert AllPlatforms[5] == p;
      case Pinterest => assert AllPlatforms[6] == p;
      case Threads => assert AllPlatforms[7] == p;
    }
  }

  /** `prev.filter(p => p !== platform)`: the selection without one
      platform, in order. */
  function Without(sel: seq<Platform>, p: Platform): (r: seq<Platform>)
    ensures |r| <= |sel|
    ensures forall q :: q in r <==> q in sel && q != p
  {
    if sel == [] then []
    else
      var rest := Without(sel[1..], p);
      assert forall q :: q in sel <==> q == sel[0] || q in sel[1..];
      if sel[0] == p then rest else [sel[0]] + rest
  }

  /** Removing a platform that is not selected changes nothing. */
  lemma {:induction false} WithoutAbsent(sel: seq<Platform>, p: Platform)
    requires p !in sel
    ensures Without(sel, p) == sel
    decreases |sel|
  {
    if sel != [] {
      WithoutAbsent(sel[1..], p);
    }
  }

  /** In a selection without repeats, removing the platform at position
      `i` leaves the others in their order. */
  lemma {:induction false} WithoutAt(sel: seq<Platform>, i: nat)
    requires NoDup(sel) && i < |sel|
    ensures Without(sel, sel[i]) == sel[..i] + sel[i + 1..]
    decreases |sel|
  {
    if i == 0 {
      assert sel[0] !in sel[1..];
      WithoutAbsent(sel[1..], sel[0]);
    } else {
      var tail := sel[1..];
      assert tail[i - 1] == sel[i];
      WithoutAt(tail, i - 1);
      assert tail[..i - 1] + tail[i..] == sel[1..i] + sel[i + 1..];
      assert sel[..i] + sel[i + 1..] == [sel[0]] + (sel[1..i] + sel[i + 1..]);
    }
  }

  /** Removing the platform just appended gives back the selection. */
  lemma {:induction false} WithoutLast(sel: seq<Platform>, p: Platform)
    requires p !in sel
    ensures Without(sel + [p], p) == sel
    decreases |sel|
  {
    if sel == [] {
      assert [p][1..] == [];
    } else {
      assert (sel + [p])[1..] == sel[1..] + [p];
      WithoutLast(sel[1..], p);
    }
  }

  /** `togglePlatform` (PostGenerator.tsx:41-51): a selected platform is
      removed unless it is the only one, and an unselected one is appended
      at the end; no other platform changes its membership. */
  function TogglePlatform(sel: seq<Platform>, p: Platform): (r: seq<Platform>)
    ensures p in r <==> p !in sel || |sel| == 1
    ensures forall q :: q != p ==> (q in r <==> q in sel)
    ensures p in sel && |sel| == 1 ==> r == sel
    ensures p !in sel ==> r == sel + [p]
  {
    if p in sel then
      if |sel| == 1 then sel
      else Without(sel, p)
    else sel + [p]
  }

  /** Toggling a selected platform, when others are selected too, takes
      out exactly that one and keeps the rest in order. */
  lemma ToggleRemovesAt(sel: seq<Platform>, i: nat)
    requires NoDup(sel) && i < |sel| && |sel| > 1
    ensures TogglePlatform(sel, sel[i]) == sel[..i] + sel[i + 1..]
  {
    WithoutAt(sel, i);
  }

  /** Toggling an unselected platform twice restores the selection. */
  lemma ToggleTwice(sel: seq<Platform>, p: Platform)
    requires p !in sel && |sel| > 0
    ensures TogglePlatform(TogglePlatform(sel, p), p) == sel
  {
    WithoutLast(sel, p);
  }

  /** A non-empty selection without repeats stays so under toggling, so
      the selection is never emptied. (With a repeated platform, removing
      it takes every copy: `[p, p]` would become empty.) */
  lemma ToggleKeepsSelection(sel: seq<Platform>, p: Platform)
    requires |sel| > 0 && NoDup(sel)
    ensures var r := TogglePlatform(sel, p); |r| > 0 && NoDup(r)
  {
    if p in sel && |sel| > 1 {
      var i :| 0 <= i < |sel| && sel[i] == p;
      ToggleRemovesAt(sel, i);
      var r := sel[..i] + sel[i + 1..];
      forall a, b | 0 <= a < b < |r|
        ensures r[a] != r[b]
      {
        var a' := if a < i then a else a + 1;
        var b' := if b < i then b else b + 1;
        assert r[a] == sel[a'] && r[b] == sel[b'];
      }
    }
  }

  // ---------------------------------------------------------------------------
  // The results map

  /** The map built from the answers, one per selected platform in
      selection order, each written over what an earlier one wrote
      (PostGenerator.tsx:74-77). */
  function ResultsMap(sel: seq<Platform>, contents: seq<string>): (m: map<Platform, string>)
    requires |sel| == |contents|
    ensures m.Keys == set q | q in sel
    decreases |sel|
  {
    if sel == [] then map[]
    else
      var n := |sel| - 1;
      assert forall q :: q in sel <==> q in sel[..n] || q == sel[n];
      ResultsMap(sel[..n], contents[..n])[sel[n] := contents[n]]
  }

  /** The entry of a platform holds the answer for its last occurrence in
      the selection. */
  lemma {:induction false} LastAnswerWins(sel: seq<Platform>, contents: seq<string>, k: nat)
    requires |sel| == |contents| && k < |sel|
    requires forall j :: k < j < |sel| ==> sel[j] != sel[k]
    ensures ResultsMap(sel, contents)[sel[k]] == contents[k]
    decreases |sel|
  {
    var n := |sel| - 1;
    if k < n {
      LastAnswerWins(sel[..n], contents[..n], k);
    }
  }

  /** Without repeats in the selection, every selected platform gets its
      own answer. */
  lemma ResultsOfDistinct(sel: seq<Platform>, contents: seq<string>)
    requires |sel| == |contents| && NoDup(sel)
    ensures forall k :: 0 <= k < |sel| ==> ResultsMap(sel, contents)[sel[k]] == contents[k]
  {
    forall k | 0 <= k < |sel|
      ensures ResultsMap(sel, contents)[sel[k]] == contents[k]
    {
      LastAnswerWins(sel, contents, k);
    }
  }

  /** The `forEach` that fills `newResults` (PostGenerator.tsx:74-77). */
  method BuildResults(sel: seq<Platform>, contents: seq<string>) returns (m: map<Platform, string>)
    requires |sel| == |contents|
    ensures m == ResultsMap(sel, contents)
  {
    m := map[];
    var i := 0;
    while i < |sel|
      invariant 0 <= i <= |sel|
      invariant m == ResultsMap(sel[..i], contents[..i])
    {
      assert sel[..i + 1][..i] == sel[..i] && contents[..i + 1][..i] == contents[..i];
      m := m[sel[i] := contents[i]];
      i := i + 1;
    }
    assert sel[..i] == sel && contents[..i] == contents;
  }

  /** The results after a translation: a successful one writes that
      platform's entry and keeps every other entry; a failed one changes
      nothing (PostGenerator.tsx:103-106). */
  function TranslatedResults(results: map<Platform, string>, p: Platform, translated: Option<string>): (r: map<Platform, string>)
    ensures translated.None? ==> r == results
    ensures translated.Some? ==> r.Keys == results.Keys + {p} && r[p] == translated.value
    ensures forall q :: q in results && q != p ==> q in r && r[q] == results[q]
  {
    match translated
    case None => results
    case Some(t) => results[p := t]
  }

  /** `translatePost` answers a failed cloud call with the content it was
      given (services/aiService.ts:128-133), so a failed translation of
      the shown entry writes that entry back and the map stays as it was. */
  lemma TranslateFallbackKeeps(results: map<Platform, string>, p: Platform)
    requires p in results
    ensures TranslatedResults(results, p, Some(results[p])) == results
  {
  }

  /** Translating a generated post keeps one entry per selected platform. */
  lemma TranslateKeepsPlatforms(sel: seq<Platform>, contents: seq<string>, p: Platform, t: string)
    requires |sel| == |contents| && p in sel
    ensures TranslatedResults(ResultsMap(sel, contents), p, Some(t)).Keys == set q | q in sel
  {
  }

  // ---------------------------------------------------------------------------
  // The composer's state

  /** What the critique panel shows: the analysis, or the fixed apology
      when the analysis call failed (PostGenerator.tsx:87-97). */
  datatype CritiqueText = Analysis(text: string) | CritiqueFailed
  datatype Critique = Critique(platform: Platform, text: CritiqueText)

  /** The topic shown when brainstorming failed (PostGenerator.tsx:128). */
  const FallbackTopic: string := "Share a breakdown of your most complex node shader network."

  class PostComposer {
    var topic: string
    var selected: seq<Platform>
    var isGenerating: bool
    var isBrainstorming: bool
    var results: map<Platform, string>
    var critique: Option<Critique>
    var isCritiquing: bool
    var translating: map<Platform, bool>

    /** The selection is never empty and never repeats a platform. */
    predicate Valid()
      reads this
    {
      |selected| > 0 && NoDup(selected)
    }

    /** The initial state (PostGenerator.tsx:18-31): empty topic, Instagram
        selected, no results. */
    constructor ()
      ensures Valid()
      ensures topic == "" && selected == [Instagram] && results == map[] && critique == None
      ensures !isGenerating && !isBrainstorming && !isCritiquing && translating == map[]
    {
      topic := "";
      selected := [Instagram];
      isGenerating := false;
      isBrainstorming := false;
      results := map[];
      critique := None;
      isCritiquing := false;
      translating := map[];
    }

    /** The effect on the initial topic and platform (PostGenerator.tsx:33-39):
        a non-empty topic replaces the topic, and a given platform becomes
        the whole selection. */
    method ApplyInitial(initialTopic: Option<string>, initialPlatform: Option<Platform>)
      requires Valid()
      modifies this
      ensures Valid()
      ensures topic == (if initialTopic.Some? && initialTopic.value != "" then initialTopic.value else old(topic))
      ensures selected == (if initialPlatform.Some? then [initialPlatform.value] else old(selected))
      ensures results == old(results) && critique == old(critique) && translating == old(translating)
      ensures isGenerating == old(isGenerating) && isBrainstorming == old(isBrainstorming) && isCritiquing == old(isCritiquing)
    {
      if initialTopic.Some? && initialTopic.value != "" {
        topic := initialTopic.value;
      }
      if initialPlatform.Some? {
        selected := [initialPlatform.value];
      }
    }

    /** A click on a platform button. */
    method Toggle(p: Platform)
      requires Valid()
      modifies this
      ensures Valid()
      ensures selected == TogglePlatform(old(selected), p)
      ensures topic == old(topic) && results == old(results) && critique == old(critique) && translating == old(translating)
      ensures isGenerating == old(isGenerating) && isBrainstorming == old(isBrainstorming) && isCritiquing == old(isCritiquing)
    {
      ToggleKeepsSelection(selected, p);
      selected := TogglePlatform(selected, p);
    }

    /** "Select All" (PostGenerator.tsx:156). */
    method SelectAll()
      modifies this
      ensures Valid()
      ensures selected == AllPlatforms
      ensures topic == old(topic) && results == old(results) && critique == old(critique) && translating == old(translating)
      ensures isGenerating == old(isGenerating) && isBrainstorming == old(isBrainstorming) && isCritiquing == old(isCritiquing)
    {
      AllPlatformsComplete();
      selected := AllPlatforms;
    }

    /** `handleGenerate` (PostGenerator.tsx:53-85). A blank topic or an
        empty selection changes nothing. Otherwise the old results and
        critique are cleared; when every generation call answered
        (`generated`, one answer per selected platform in order) the map
        holds one entry per selected platform, and when one failed it stays
        empty. */
    method Generate(generated: Option<seq<string>>)
      requires Valid()
      requires generated.Some? ==> |generated.value| == |selected|
      modifies this
      ensures Valid()
      ensures AllSpace(old(topic)) || old(selected) == [] ==>
        && topic == old(topic) && selected == old(selected) && results == old(results) && critique == old(critique)
        && isGenerating == old(isGenerating)
      ensures !AllSpace(old(topic)) && old(selected) != [] ==>
        && results == (if generated.Some? then ResultsMap(old(selected), generated.value) else map[])
        && critique == None && !isGenerating
        && topic == old(topic) && selected == old(selected)
      ensures translating == old(translating) && isBrainstorming == old(isBrainstorming) && isCritiquing == old(isCritiquing)
    {
      TrimEmptyIffAllSpace(topic);
      if Trim(topic) == "" || |selected| == 0 {
        return;
      }
      isGenerating := true;
      results := map[];
      critique := None;
      if generated.Some? {
        var built := BuildResults(selected, generated.value);
        results := built;
      }
      isGenerating := false;
    }

    /** `handleCritique` (PostGenerator.tsx:87-97): the critique panel shows
        the analysis for that platform, or the apology when it failed. */
    method CritiquePost(p: Platform, analysis: Option<string>)
      requires Valid()
      modifies this
      ensures Valid()
      ensures critique == Some(Critique(p, if analysis.Some? then Analysis(analysis.value) else CritiqueFailed))
      ensures !isCritiquing
      ensures topic == old(topic) && selected == old(selected) && results == old(results) && translating == old(translating)
      ensures isGenerating == old(isGenerating) && isBrainstorming == old(isBrainstorming)
    {
      isCritiquing := true;
      match analysis {
        case Some(text) => critique := Some(Critique(p, Analysis(text)));
        case None => critique := Some(Critique(p, CritiqueFailed));
      }
      isCritiquing := false;
    }

    /** `handleTranslate` (PostGenerator.tsx:99-112): a successful
        translation replaces that platform's entry only, and the platform's
        busy flag ends cleared either way. */
    method Translate(p: Platform, translated: Option<string>)
      requires Valid()
      modifies this
      ensures Valid()
      ensures results == TranslatedResults(old(results), p, translated)
      ensures translating == old(translating)[p := false]
      ensures topic == old(topic) && selected == old(selected) && critique == old(critique)
      ensures isGenerating == old(isGenerating) && isBrainstorming == old(isBrainstorming) && isCritiquing == old(isCritiquing)
    {
      translating := translating[p := true];
      if translated.Some? {
        results := results[p := translated.value];
      }
      translating := translating[p := false];
    }

    /** `handleBrainstorm` (PostGenerator.tsx:122-132): the idea becomes the
        topic, or the fixed fallback topic when the call failed. */
    method Brainstorm(idea: Option<string>)
      requires Valid()
      modifies this
      ensures Valid()
      ensures topic == (if idea.Some? then idea.value else FallbackTopic)
      ensures !isBrainstorming
      ensures selected == old(selected) && results == old(results) && critique == old(critique) && translating == old(translating)
      ensures isGenerating == old(isGenerating) && isCritiquing == old(isCritiquing)
    {
      isBrainstorming := true;
      topic := if idea.Some? then idea.value else FallbackTopic;
      isBrainstorming := false;
    }

    /** `clearResults` (PostGenerator.tsx:134-137). */
    method ClearResults()
      requires Valid()
      modifies this
      ensures Valid()
      ensures results == map[] && critique == None
      ensures topic == old(topic) && selected == old(selected) && translating == old(translating)
      ensures isGenerating == old(isGenerating) && isBrainstorming == old(isBrainstorming) && isCritiquing == old(isCritiquing)
    {
      results := map[];
      critique := None;
    }
  }
}
