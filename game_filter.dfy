/**
 * The rule-based content filter (GameHubApi.Services/GameFilter.cs). The blocked tags come from
 * the `BlockedTags` configuration value, a comma-separated list; a game is blocked when one of
 * its tags is a blocked tag, or its name or non-blank description contains one, ignoring case.
 */
module GameFilters {
  import opened Wrappers
  import opened Text
  import opened Contracts
  import Errors

  const BlockedTagsKey: string := "BlockedTags"

  datatype FilterResult = Passed | Blocked

  /** The configuration's value under a key; a missing key reads as null. */
  function ConfigValue(configuration: map<string, string>, key: string): Option<string>
  {
    if key in configuration then Some(configuration[key]) else None
  }

  /**
   * The constructor's pipeline: nothing for a blank value, otherwise the value split on ',',
   * the zero-length pieces dropped and every other piece trimmed.
   */
  function ParseBlockedTags(value: Option<string>): seq<string>
  {
    if IsNullOrWhiteSpace(value) then [] else TrimAll(RemoveEmpty(Split(value.value, ',')))
  }

  /** A blank value blocks nothing. */
  lemma BlankValueBlocksNothing(value: Option<string>)
    requires IsNullOrWhiteSpace(value)
    ensures ParseBlockedTags(value) == []
  {
  }

  /**
   * Every blocked tag is a non-empty comma-free stretch of the value, trimmed, and every such
   * stretch gives a blocked tag; the stretches put back together with ',' are the value.
   */
  lemma ParsedTags(value: string)
    requires !IsNullOrWhiteSpace(Some(value))
    ensures Join(Split(value, ','), ',') == value
    ensures forall t :: t in ParseBlockedTags(Some(value)) <==>
                          exists p :: p in Split(value, ',') && p != [] && t == Trim(p)
    ensures forall t | t in ParseBlockedTags(Some(value)) :: ',' !in t
  {
    JoinSplit(value, ',');
    var split := Split(value, ',');
    var pieces := RemoveEmpty(split);
    assert ParseBlockedTags(Some(value)) == TrimAll(pieces);
    TrimAllMembers(pieces);
    forall p | p in pieces ensures ',' !in p {
      var i :| 0 <= i < |split| && split[i] == p;
    }
    TrimAllKeepsOut(pieces, ',');
  }

  /** The trimmed pieces are exactly the trims of the pieces. */
  lemma TrimAllMembers(parts: seq<string>)
    ensures forall t :: t in TrimAll(parts) <==> exists p :: p in parts && t == Trim(p)
  {
    var tags := TrimAll(parts);
    forall t ensures t in tags <==> exists p :: p in parts && t == Trim(p) {
      if t in tags {
        var i :| 0 <= i < |tags| && tags[i] == t;
        assert parts[i] in parts;
      }
      if exists p :: p in parts && t == Trim(p) {
        var p :| p in parts && t == Trim(p);
        var i :| 0 <= i < |parts| && parts[i] == p;
        assert tags[i] == t;
      }
    }
  }

  /** Trimming pieces that lack a character gives tags that lack it. */
  lemma TrimAllKeepsOut(parts: seq<string>, c: char)
    requires forall p | p in parts :: c !in p
    ensures forall t | t in TrimAll(parts) :: c !in t
  {
    var tags := TrimAll(parts);
    forall t | t in tags ensures c !in t {
      var i :| 0 <= i < |tags| && tags[i] == t;
      assert parts[i] in parts;
      TrimInside(parts[i]);
    }
  }

  /** Trimming keeps a stretch of the string, so it adds no character. */
  lemma TrimInside(s: string)
    ensures forall c | c in Trim(s) :: c in s
  {
    var i := TrimShape(s);
    forall c | c in Trim(s) ensures c in s {
      var k :| 0 <= k < |Trim(s)| && Trim(s)[k] == c;
      assert s[i + k] == c;
    }
  }

  /** An entry of white space alone is not dropped: it survives the pipeline as the empty tag. */
  lemma BlankEntryIsEmptyTag()
    ensures ParseBlockedTags(Some("a, ")) == ["a", ""]
  {
    var pieces := Split("a, ", ',');
    assert IndexOf("a, ", ',') == Some(1);
    assert IndexOf(" ", ',') == None;
    assert "a, "[..1] == "a" && "a, "[2..] == " ";
    assert pieces == ["a", " "];
    assert RemoveEmpty(["a", " "]) == ["a", " "] by {
      assert ["a", " "][1..] == [" "];
      assert [" "][1..] == [];
    }
    assert TrimAll(["a", " "]) == [Trim("a"), Trim(" ")] by {
      assert ["a", " "][1..] == [" "];
      assert [" "][1..] == [];
    }
    TrimBlank(" ");
    assert !AllWhiteSpace("a");
    TrimNonBlankSingle('a');
  }

  /** A single non-blank character trims to itself. */
  lemma TrimNonBlankSingle(c: char)
    requires !IsWhiteSpace(c)
    ensures Trim([c]) == [c]
  {
    assert [c][0] == c && [c][|[c]| - 1] == c;
    assert TrimStart([c]) == [c];
    assert TrimEnd([c]) == [c];
  }

  /** `blockedTags.Contains(name, StringComparer.OrdinalIgnoreCase)`. */
  function ContainsTag(blocked: seq<string>, name: string): (r: bool)
    ensures r <==> exists i | 0 <= i < |blocked| :: EqualsIgnoreCase(blocked[i], name)
  {
    if blocked == [] then false
    else if EqualsIgnoreCase(blocked[0], name) then true
    else
      var r := ContainsTag(blocked[1..], name);
      assert forall i | 1 <= i < |blocked| :: blocked[i] == blocked[1..][i - 1];
      r
  }

  /** `tags.Any(tag => blockedTags.Contains(tag.Name, …))`. */
  function AnyTagBlocked(tags: seq<Tag>, blocked: seq<string>): (r: bool)
    ensures r <==> exists j | 0 <= j < |tags| :: ContainsTag(blocked, tags[j].name)
  {
    if tags == [] then false
    else if ContainsTag(blocked, tags[0].name) then true
    else
      var r := AnyTagBlocked(tags[1..], blocked);
      assert forall j | 1 <= j < |tags| :: tags[j] == tags[1..][j - 1];
      r
  }

  /** `blockedTags.Any(tag => text.Contains(tag, StringComparison.OrdinalIgnoreCase))`. */
  function AnyContained(blocked: seq<string>, text: string): (r: bool)
    ensures r <==> exists i | 0 <= i < |blocked| :: ContainsIgnoreCase(text, blocked[i])
  {
    if blocked == [] then false
    else if ContainsIgnoreCase(text, blocked[0]) then true
    else
      var r := AnyContained(blocked[1..], text);
      assert forall i | 1 <= i < |blocked| :: blocked[i] == blocked[1..][i - 1];
      r
  }

  /**
   * The verdict on a game's tags (null when absent), name and description: Blocked exactly when
   * one of the three rules fires, Passed otherwise.
   */
  function Verdict(blocked: seq<string>, tags: Option<seq<Tag>>, name: string, description: Option<string>): (r: FilterResult)
    ensures r == Blocked <==>
              || (tags.Some? && exists j | 0 <= j < |tags.value| ::
                                  exists i | 0 <= i < |blocked| :: EqualsIgnoreCase(blocked[i], tags.value[j].name))
              || (exists i | 0 <= i < |blocked| :: ContainsIgnoreCase(name, blocked[i]))
              || (!IsNullOrWhiteSpace(description)
                  && exists i | 0 <= i < |blocked| :: ContainsIgnoreCase(description.value, blocked[i]))
  {
    if tags.Some? && AnyTagBlocked(tags.value, blocked) then Blocked
    else if AnyContained(blocked, name) then Blocked
    else if !IsNullOrWhiteSpace(description) && AnyContained(blocked, description.value) then Blocked
    else Passed
  }

  /** With no blocked tags every game passes. */
  lemma EmptyListPassesAll(tags: Option<seq<Tag>>, name: string, description: Option<string>)
    ensures Verdict([], tags, name, description) == Passed
  {
  }

  /** An empty blocked tag is contained in every name, so it blocks every game. */
  lemma EmptyTagBlocksAll(blocked: seq<string>, tags: Option<seq<Tag>>, name: string, description: Option<string>)
    requires "" in blocked
    ensures Verdict(blocked, tags, name, description) == Blocked
  {
    var i :| 0 <= i < |blocked| && blocked[i] == "";
    ContainsEmpty(name);
    assert ContainsIgnoreCase(name, blocked[i]);
  }

  /** Blocking more tags never lets more games through. */
  lemma MoreTagsBlockMore(fewer: seq<string>, more: seq<string>, tags: Option<seq<Tag>>, name: string,
                          description: Option<string>)
    requires forall t | t in fewer :: t in more
    requires Verdict(fewer, tags, name, description) == Blocked
    ensures Verdict(more, tags, name, description) == Blocked
  {
    if tags.Some? && exists j | 0 <= j < |tags.value| ::
                       exists i | 0 <= i < |fewer| :: EqualsIgnoreCase(fewer[i], tags.value[j].name) {
      var j, i :| 0 <= j < |tags.value| && 0 <= i < |fewer| && EqualsIgnoreCase(fewer[i], tags.value[j].name);
      assert fewer[i] in more;
      var k :| 0 <= k < |more| && more[k] == fewer[i];
      assert EqualsIgnoreCase(more[k], tags.value[j].name);
    } else if exists i | 0 <= i < |fewer| :: ContainsIgnoreCase(name, fewer[i]) {
      var i :| 0 <= i < |fewer| && ContainsIgnoreCase(name, fewer[i]);
      assert fewer[i] in more;
      var k :| 0 <= k < |more| && more[k] == fewer[i];
      assert ContainsIgnoreCase(name, more[k]);
    } else {
      var i :| 0 <= i < |fewer| && ContainsIgnoreCase(description.value, fewer[i]);
      assert fewer[i] in more;
      var k :| 0 <= k < |more| && more[k] == fewer[i];
      assert ContainsIgnoreCase(description.value, more[k]);
    }
  }

  lemma FoldIdempotent(s: string)
    ensures Fold(Fold(s)) == Fold(s)
  {
  }

  /** The case of the name's letters does not matter. */
  lemma VerdictIgnoresNameCase(blocked: seq<string>, tags: Option<seq<Tag>>, name: string, description: Option<string>)
    ensures Verdict(blocked, tags, name, description) == Verdict(blocked, tags, Fold(name), description)
  {
    FoldIdempotent(name);
    assert forall i | 0 <= i < |blocked| ::
             ContainsIgnoreCase(name, blocked[i]) == ContainsIgnoreCase(Fold(name), blocked[i]);
  }

  /** The additional filter the factory resolves under "AI"; its behaviour is not modelled. */
  datatype AiGameFilter = AiGameFilter(name: string)

  /** A constructed filter: its blocked tags and the AI filter it holds. */
  datatype GameFilter = GameFilter(blockedTags: seq<string>, aiGameFilter: AiGameFilter)

  /**
   * The constructor. A null configuration is rejected first; the blocked tags are parsed from
   * the `BlockedTags` value; then the factory is invoked, and a null factory fails on the call,
   * while a null "AI" filter is rejected by name.
   */
  function New(configuration: Option<map<string, string>>,
               gameFilterFactory: Option<string -> Option<AiGameFilter>>): (r: Result<GameFilter, Errors.Exception>)
    ensures configuration.None? ==> r == Failure(Errors.ArgumentNullException("configuration"))
    ensures configuration.Some? && gameFilterFactory.None? ==> r == Failure(Errors.NullReferenceException)
    ensures configuration.Some? && gameFilterFactory.Some? && gameFilterFactory.value("AI").None?
            ==> r == Failure(Errors.ArgumentNullException("aiGameFilter"))
    ensures r.Success? ==> r.value.blockedTags == ParseBlockedTags(ConfigValue(configuration.value, BlockedTagsKey))
                           && gameFilterFactory.Some? && Some(r.value.aiGameFilter) == gameFilterFactory.value("AI")
    ensures configuration.Some? && gameFilterFactory.Some? && gameFilterFactory.value("AI").Some? ==> r.Success?
  {
    if configuration.None? then Failure(Errors.ArgumentNullException("configuration"))
    else
      var blockedTags := ParseBlockedTags(ConfigValue(configuration.value, BlockedTagsKey));
      if gameFilterFactory.None? then Failure(Errors.NullReferenceException)
      else match gameFilterFactory.value("AI")
        case None => Failure(Errors.ArgumentNullException("aiGameFilter"))
        case Some(ai) => Success(GameFilter(blockedTags, ai))
  }

  /** A game's tag list as the filter sees it: null when the game has none. */
  function TagsOf(game: Game): Option<seq<Tag>>
    reads game, game.tags
  {
    if game.tags == null then None else Some(game.tags.items)
  }

  /**
   * `FilterAsync`: a null game is rejected; otherwise the verdict of the three rules on the
   * game's tags, name and description. The AI filter is never consulted.
   */
  function FilterAsync(filter: GameFilter, game: Game?): (r: Result<FilterResult, Errors.Exception>)
    reads game, if game != null then {game.tags} else {}
    ensures game == null ==> r == Failure(Errors.ArgumentNullException("game"))
    ensures game != null ==> r == Success(Verdict(filter.blockedTags, TagsOf(game), game.name, game.description))
  {
    if game == null then Failure(Errors.ArgumentNullException("game"))
    else Success(Verdict(filter.blockedTags, TagsOf(game), game.name, game.description))
  }

  /** Filters built from a configuration without blocked tags pass every game. */
  lemma NoBlockedTagsPassesEveryGame(configuration: map<string, string>,
                                     gameFilterFactory: string -> Option<AiGameFilter>, game: Game)
    requires BlockedTagsKey !in configuration || IsNullOrWhiteSpace(Some(configuration[BlockedTagsKey]))
    requires gameFilterFactory("AI").Some?
    ensures New(Some(configuration), Some(gameFilterFactory)).Success?
    ensures FilterAsync(New(Some(configuration), Some(gameFilterFactory)).value, game) == Success(Passed)
  {
    var f := New(Some(configuration), Some(gameFilterFactory));
    assert f.value.blockedTags == [];
    EmptyListPassesAll(TagsOf(game), game.name, game.description);
  }

  /** A configuration with a blank entry blocks every game. */
  lemma BlankEntryBlocksEveryGame(gameFilterFactory: string -> Option<AiGameFilter>, game: Game)
    requires gameFilterFactory("AI").Some?
    ensures var f := New(Some(map[BlockedTagsKey := "a, "]), Some(gameFilterFactory));
            f.Success? && FilterAsync(f.value, game) == Success(Blocked)
  {
    var f := New(Some(map[BlockedTagsKey := "a, "]), Some(gameFilterFactory));
    assert ConfigValue(map[BlockedTagsKey := "a, "], BlockedTagsKey) == Some("a, ");
    BlankEntryIsEmptyTag();
    assert "" in f.value.blockedTags;
    EmptyTagBlocksAll(f.value.blockedTags, TagsOf(game), game.name, game.description);
  }
}
