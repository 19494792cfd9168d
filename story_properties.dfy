/** What every story of the offline generator is guaranteed to say, for
    every theme, every character selection and every random draw: each
    placeholder the generator has a value for is gone, the placeholders of
    characters that were not selected are left in the text, and the baby's
    name is in it. Each is proved on the joined sentences and carried over
    to the formatted story, which differs from them only by the blank
    lines `StoryGenerator.ParagraphBreaks` inserts. */
module StoryProperties {
  import opened Strings
  import opened Placeholders
  import opened StoryForm
  import opened StoryGenerator

  /** Parameters whose values cannot start a placeholder. The form's
      option values are such texts; the typed name is one unless it holds
      a `{`. */
  predicate PlainParams(params: StoryParams) {
    && Plain(params.babyName) && Plain(params.setting) && Plain(params.feeling)
    && Plain(params.lesson) && Plain(params.theme)
    && forall i :: 0 <= i < |params.characters| ==> Plain(params.characters[i])
  }

  /** Plain parameters and one drawn name per selected character. */
  predicate Inputs(params: StoryParams, drawn: seq<PlainText>) {
    PlainParams(params) && |drawn| == |params.characters|
  }

  /** The placeholders `replacePlaceholders` replaces in every sentence,
      apart from the dictionary's keys. */
  const FixedKeys: seq<Name> :=
    [BabyNameKey, SettingKey, FeelingKey, LessonKey, ThemeKey,
     Character2ActionKey, DiscoveryKey, FriendlyActionKey, LearningTopicKey, SkillKey]

  /** `{w}` is replaced: it is a fixed placeholder or a dictionary key. */
  predicate Replaced(names: seq<Binding>, w: string) {
    w in FixedKeys || Binds(names, w)
  }

  /** A sentence's replaces are exactly the fixed placeholders and the
      dictionary's keys, whatever was drawn. */
  lemma SentenceBindsReplaced(params: StoryParams, names: seq<Binding>, c: Content, w: string)
    ensures Binds(SentenceBindings(params, names, c), w) <==> Replaced(names, w)
  {
    var basic, dynamic := BasicBindings(params), DynamicBindings(c);
    var all := SentenceBindings(params, names, c);
    var n := |names|;
    assert |all| == 10 + n;
    assert forall j :: 0 <= j < 5 ==> all[j] == basic[j] && basic[j].key == FixedKeys[j];
    assert forall j :: 0 <= j < n ==> all[5 + j] == names[j];
    assert forall j :: 5 <= j < 10 ==> all[j + n] == dynamic[j - 5] && dynamic[j - 5].key == FixedKeys[j];
    if Binds(all, w) {
      var i :| 0 <= i < |all| && all[i].key == w;
      if i < 5 {
        assert FixedKeys[i] == w;
      } else if i < 5 + n {
        assert names[i - 5].key == w;
      } else {
        assert FixedKeys[i - n] == w;
      }
    }
    if w in FixedKeys {
      var j :| 0 <= j < |FixedKeys| && FixedKeys[j] == w;
      if j < 5 {
        assert all[j].key == w;
      } else {
        assert all[j + n].key == w;
      }
    } else if Binds(names, w) {
      var j :| 0 <= j < n && names[j].key == w;
      assert all[5 + j].key == w;
    }
  }

  /** With plain parameters, every value a sentence is filled with is
      plain. */
  lemma SentenceBindingsPlain(params: StoryParams, drawn: seq<PlainText>, c: Content)
    requires Inputs(params, drawn)
    ensures ValuesArePlain(SentenceBindings(params, CharacterNames(params.characters, drawn), c))
  {
    var names := CharacterNames(params.characters, drawn);
    CharacterNamesPlain(params.characters, drawn);
    var basic, dynamic := BasicBindings(params), DynamicBindings(c);
    assert ValuesArePlain(basic);
    assert ValuesArePlain(dynamic);
    ValuesArePlainAppend(basic, names);
    ValuesArePlainAppend(basic + names, dynamic);
  }

  /** A template's sentences with the slots filled in, as pieces. */
  function FilledSentences(template: seq<seq<Piece>>, params: StoryParams, drawn: seq<PlainText>, contents: seq<Content>)
    : (r: seq<seq<Piece>>)
    requires Inputs(params, drawn) && |contents| == |template|
    ensures |r| == |template|
  {
    var names := CharacterNames(params.characters, drawn);
    seq(|template|, i requires 0 <= i < |template| =>
      SentenceBindingsPlain(params, drawn, contents[i]);
      FillEach(template[i], SentenceBindings(params, names, contents[i])))
  }

  /** Each replaced sentence is its filled pieces rendered. */
  lemma FillSentencesRender(template: seq<seq<Piece>>, params: StoryParams, drawn: seq<PlainText>, contents: seq<Content>)
    requires Inputs(params, drawn) && |contents| == |template|
    ensures FillSentences(template, params, CharacterNames(params.characters, drawn), contents)
      == RenderAll(FilledSentences(template, params, drawn, contents))
  {
    var names := CharacterNames(params.characters, drawn);
    var filled := FilledSentences(template, params, drawn, contents);
    forall i | 0 <= i < |template|
      ensures FillSentences(template, params, names, contents)[i] == RenderAll(filled)[i]
    {
      SentenceBindingsPlain(params, drawn, contents[i]);
      FillEachRender(template[i], SentenceBindings(params, names, contents[i]));
    }
  }

  /** The joined sentences are the filled sentences, joined by spaces,
      rendered. */
  lemma JoinedSentencesRender(template: seq<seq<Piece>>, params: StoryParams, drawn: seq<PlainText>, contents: seq<Content>)
    requires Inputs(params, drawn) && |contents| == |template|
    ensures TextOf(template, params, CharacterNames(params.characters, drawn), contents)
      == Render(JoinPieces(FilledSentences(template, params, drawn, contents), " "))
  {
    FillSentencesRender(template, params, drawn, contents);
    RenderJoin(FilledSentences(template, params, drawn, contents), " ");
  }

  /** For any template: a placeholder with a value is in none of the
      joined sentences. */
  lemma ReplacedGoneFromTemplate(template: seq<seq<Piece>>, params: StoryParams, drawn: seq<PlainText>,
                                 contents: seq<Content>, w: Name)
    requires Inputs(params, drawn) && |contents| == |template|
    requires Replaced(CharacterNames(params.characters, drawn), w)
    ensures !Contains(TextOf(template, params, CharacterNames(params.characters, drawn), contents), Placeholder(w))
  {
    var names := CharacterNames(params.characters, drawn);
    var filled := FilledSentences(template, params, drawn, contents);
    forall i | 0 <= i < |template| ensures Slot(w) !in filled[i] {
      SentenceBindingsPlain(params, drawn, contents[i]);
      SentenceBindsReplaced(params, names, contents[i], w);
      FillEachSlots(template[i], SentenceBindings(params, names, contents[i]), w);
    }
    JoinPiecesSlots(filled, " ", w);
    AbsentSlotNotRendered(JoinPieces(filled, " "), w);
    JoinedSentencesRender(template, params, drawn, contents);
  }

  /** For any template: a placeholder without a value stays in the joined
      sentences when one of the template's sentences has it. */
  lemma UnreplacedStaysInTemplate(template: seq<seq<Piece>>, params: StoryParams, drawn: seq<PlainText>,
                                  contents: seq<Content>, k: nat, w: Name)
    requires Inputs(params, drawn) && |contents| == |template|
    requires k < |template| && Slot(w) in template[k]
    requires !Replaced(CharacterNames(params.characters, drawn), w)
    ensures Contains(TextOf(template, params, CharacterNames(params.characters, drawn), contents), Placeholder(w))
  {
    var names := CharacterNames(params.characters, drawn);
    var filled := FilledSentences(template, params, drawn, contents);
    var bs := SentenceBindings(params, names, contents[k]);
    SentenceBindingsPlain(params, drawn, contents[k]);
    SentenceBindsReplaced(params, names, contents[k], w);
    FillEachSlots(template[k], bs, w);
    PresentSlotRendered(filled[k], w);
    FillSentencesRender(template, params, drawn, contents);
    JoinContainsElement(FillSentences(template, params, names, contents), " ", k, Placeholder(w));
  }

  /** For any template: the baby's name is in the joined sentences when
      one of the sentences has `{babyName}`. */
  lemma BabyNameInTemplate(template: seq<seq<Piece>>, params: StoryParams, drawn: seq<PlainText>,
                           contents: seq<Content>, k: nat)
    requires Inputs(params, drawn) && |contents| == |template|
    requires k < |template| && Slot(BabyNameKey) in template[k]
    ensures Contains(TextOf(template, params, CharacterNames(params.characters, drawn), contents), params.babyName)
  {
    var names := CharacterNames(params.characters, drawn);
    var filled := FilledSentences(template, params, drawn, contents);
    var bs := SentenceBindings(params, names, contents[k]);
    SentenceBindingsPlain(params, drawn, contents[k]);
    assert bs[0] == Binding(BabyNameKey, params.babyName);
    FillEachFirst(template[k], bs);
    var name: PlainText := params.babyName;
    LiteralRendered(filled[k], name);
    FillSentencesRender(template, params, drawn, contents);
    JoinContainsElement(FillSentences(template, params, names, contents), " ", k, params.babyName);
  }

  /** The keys the generator replaces are single-line words. */
  lemma ReplacedKeyOneLine(characters: seq<string>, drawn: seq<PlainText>, w: Name)
    requires |drawn| == |characters| && Replaced(CharacterNames(characters, drawn), w)
    ensures '\n' !in w && '\n' !in Placeholder(w)
  {
    if w in FixedKeys {
      FixedKeysOneLine();
    } else {
      var r := CharacterNames(characters, drawn);
      var k :| 0 <= k < |r| && r[k].key == w;
      CharacterKeysAt(characters, drawn, k);
      NumberedKeysOneLine(k / 2 + 1);
    }
  }

  lemma FixedKeysOneLine()
    ensures forall w :: w in FixedKeys ==> '\n' !in w
  {
  }

  lemma NumberedKeysOneLine(n: nat)
    ensures '\n' !in NameKey(n) && '\n' !in TypeKey(n)
  {
    var d := Dec(n);
    assert '\n' !in d by {
      forall i | 0 <= i < |d| ensures d[i] != '\n' { assert IsDigit(d[i]); }
    }
  }

  /** Formatting the joined sentences into paragraphs keeps every text
      without `.` that does not start with a space. */
  lemma StoryKeepsText(params: StoryParams, names: seq<Binding>, contents: seq<Content>, w: string)
    requires |contents| == 8
    requires Contains(StoryText(params, names, contents), w) && '.' !in w && (w == [] || w[0] != ' ')
    ensures Contains(Story(params, names, contents), w)
  {
    ParagraphBreaksKeep(StoryText(params, names, contents), w);
  }

  /** Formatting adds nothing but line breaks: a text without one that is
      not in the joined sentences is not in the story. */
  lemma StoryAddsOnlyBreaks(params: StoryParams, names: seq<Binding>, contents: seq<Content>, w: string)
    requires |contents| == 8
    requires !Contains(StoryText(params, names, contents), w) && '\n' !in w
    ensures !Contains(Story(params, names, contents), w)
  {
    var text := StoryText(params, names, contents);
    if Contains(ParagraphBreaks(text), w) {
      ParagraphBreaksOnlyBreaks(text, w);
    }
  }

  /** No placeholder the generator has a value for is left in the joined
      sentences. */
  lemma ReplacedGoneFromSentences(params: StoryParams, drawn: seq<PlainText>, contents: seq<Content>, w: Name)
    requires Inputs(params, drawn) && |contents| == 8
    requires Replaced(CharacterNames(params.characters, drawn), w)
    ensures !Contains(StoryText(params, CharacterNames(params.characters, drawn), contents), Placeholder(w))
  {
    ReplacedGoneFromTemplate(Template(params.theme), params, drawn, contents, w);
  }

  /** ... and so none is left in the story. */
  lemma ReplacedPlaceholdersGone(params: StoryParams, drawn: seq<PlainText>, contents: seq<Content>, w: Name)
    requires Inputs(params, drawn) && |contents| == 8
    requires Replaced(CharacterNames(params.characters, drawn), w)
    ensures !Contains(Story(params, CharacterNames(params.characters, drawn), contents), Placeholder(w))
  {
    var names := CharacterNames(params.characters, drawn);
    ReplacedGoneFromSentences(params, drawn, contents, w);
    ReplacedKeyOneLine(params.characters, drawn, w);
    StoryAddsOnlyBreaks(params, names, contents, Placeholder(w));
  }

  /** In particular `{character<n>Name}` and `{character<n>}` are gone for
      every selected character. */
  lemma SelectedCharactersReplaced(params: StoryParams, drawn: seq<PlainText>, contents: seq<Content>, n: nat)
    requires Inputs(params, drawn) && |contents| == 8
    requires 1 <= n <= |params.characters|
    ensures var story := Story(params, CharacterNames(params.characters, drawn), contents);
      !Contains(story, Placeholder(NameKey(n))) && !Contains(story, Placeholder(TypeKey(n)))
  {
    CharacterNamesBindName(params.characters, drawn, n);
    CharacterNamesBindType(params.characters, drawn, n);
    ReplacedPlaceholdersGone(params, drawn, contents, NameKey(n));
    ReplacedPlaceholdersGone(params, drawn, contents, TypeKey(n));
  }

  lemma ThirdInAdventure()
    ensures Slot(Character3NameKey) in AdventureTemplate()[4] && Slot(Character3Key) in AdventureTemplate()[4]
  {
    assert Adventure4()[1] == Slot(Character3NameKey) && Adventure4()[3] == Slot(Character3Key);
  }

  lemma ThirdInFriendship()
    ensures Slot(Character3NameKey) in FriendshipTemplate()[5] && Slot(Character3Key) in FriendshipTemplate()[5]
  {
    assert Friendship5()[1] == Slot(Character3NameKey) && Friendship5()[3] == Slot(Character3Key);
  }

  lemma ThirdInLearning()
    ensures Slot(Character3NameKey) in LearningTemplate()[4] && Slot(Character3Key) in LearningTemplate()[4]
  {
    assert Learning4()[0] == Slot(Character3NameKey) && Learning4()[2] == Slot(Character3Key);
  }

  /** The sentence of the template that mentions the third character. */
  function ThirdCharacterSentence(theme: string): (k: nat)
    ensures k < 8
    ensures Slot(Character3NameKey) in Template(theme)[k] && Slot(Character3Key) in Template(theme)[k]
  {
    if theme == "friendship" then ThirdInFriendship(); 5
    else if theme == "learning" then ThirdInLearning(); 4
    else ThirdInAdventure(); 4
  }

  lemma ThirdKeys()
    ensures NameKey(3) == Character3NameKey && TypeKey(3) == Character3Key
    ensures Character3NameKey !in FixedKeys && Character3Key !in FixedKeys
  {
    assert Dec(3) == [DigitChar(3)] == "3";
  }

  /** With fewer than three characters, every template leaves
      `{character3Name}` and `{character3}` in the joined sentences. */
  lemma MissingThirdCharacterInSentences(params: StoryParams, drawn: seq<PlainText>, contents: seq<Content>)
    requires Inputs(params, drawn) && |contents| == 8
    requires |params.characters| < 3
    ensures var text := StoryText(params, CharacterNames(params.characters, drawn), contents);
      Contains(text, Placeholder(Character3NameKey)) && Contains(text, Placeholder(Character3Key))
  {
    var k := ThirdCharacterSentence(params.theme);
    ThirdKeys();
    CharacterNamesBindName(params.characters, drawn, 3);
    CharacterNamesBindType(params.characters, drawn, 3);
    UnreplacedStaysInTemplate(Template(params.theme), params, drawn, contents, k, Character3NameKey);
    UnreplacedStaysInTemplate(Template(params.theme), params, drawn, contents, k, Character3Key);
  }

  /** A placeholder starts with a brace, and the third character's have
      no `.`. */
  lemma ThirdPlaceholdersKept()
    ensures var p1, p2 := Placeholder(Character3NameKey), Placeholder(Character3Key);
      '.' !in p1 && p1[0] == '{' && '.' !in p2 && p2[0] == '{'
  {
  }

  /** ... and so in the story. */
  lemma MissingThirdCharacterLeftInText(params: StoryParams, drawn: seq<PlainText>, contents: seq<Content>)
    requires Inputs(params, drawn) && |contents| == 8
    requires |params.characters| < 3
    ensures var story := Story(params, CharacterNames(params.characters, drawn), contents);
      Contains(story, Placeholder(Character3NameKey)) && Contains(story, Placeholder(Character3Key))
  {
    var names := CharacterNames(params.characters, drawn);
    MissingThirdCharacterInSentences(params, drawn, contents);
    ThirdPlaceholdersKept();
    StoryKeepsText(params, names, contents, Placeholder(Character3NameKey));
    StoryKeepsText(params, names, contents, Placeholder(Character3Key));
  }

  lemma BabyInAdventure()
    ensures Slot(BabyNameKey) in AdventureTemplate()[1]
  {
    assert Adventure1()[3] == Slot(BabyNameKey);
  }

  lemma BabyInFriendship()
    ensures Slot(BabyNameKey) in FriendshipTemplate()[0]
  {
    assert Friendship0()[3] == Slot(BabyNameKey);
  }

  lemma BabyInLearning()
    ensures Slot(BabyNameKey) in LearningTemplate()[0]
  {
    assert Learning0()[0] == Slot(BabyNameKey);
  }

  /** The sentence of the template that first names the baby. */
  function BabySentence(theme: string): (k: nat)
    ensures k < 8
    ensures Slot(BabyNameKey) in Template(theme)[k]
  {
    if theme == "friendship" then BabyInFriendship(); 0
    else if theme == "learning" then BabyInLearning(); 0
    else BabyInAdventure(); 1
  }

  /** The baby's name is in every story, provided it has no `.` and does
      not start with a space: a name such as `Dr. Mia` is split over two
      paragraphs by the formatter. */
  lemma BabyNameInText(params: StoryParams, drawn: seq<PlainText>, contents: seq<Content>)
    requires Inputs(params, drawn) && |contents| == 8
    requires '.' !in params.babyName && (params.babyName == [] || params.babyName[0] != ' ')
    ensures Contains(Story(params, CharacterNames(params.characters, drawn), contents), params.babyName)
  {
    BabyNameInTemplate(Template(params.theme), params, drawn, contents, BabySentence(params.theme));
    StoryKeepsText(params, CharacterNames(params.characters, drawn), contents, params.babyName);
  }
}
