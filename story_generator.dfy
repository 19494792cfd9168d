/** The offline story generator: sentence templates per theme, name and
    content pools, the character-name dictionary, placeholder replacement,
    paragraph formatting, and the story they make together. Each
    `Math.random()` draw is an index parameter. */
module StoryGenerator {
  import opened Strings
  import opened Placeholders
  import opened StoryForm

  /** The placeholder names the templates and `replacePlaceholders` use. */
  const BabyNameKey: Name := "babyName"
  const SettingKey: Name := "setting"
  const FeelingKey: Name := "feeling"
  const LessonKey: Name := "lesson"
  const ThemeKey: Name := "theme"
  const Character1Key: Name := "character1"
  const Character1NameKey: Name := "character1Name"
  const Character2Key: Name := "character2"
  const Character2NameKey: Name := "character2Name"
  const Character3Key: Name := "character3"
  const Character3NameKey: Name := "character3Name"
  const Character2ActionKey: Name := "character2Action"
  const DiscoveryKey: Name := "discovery"
  const FriendlyActionKey: Name := "friendlyAction"
  const LearningTopicKey: Name := "learningTopic"
  const SkillKey: Name := "skill"

  /** The adventure template, `storyGenerator.ts:6-13`, one sentence per constant. */
  function Adventure0(): seq<Piece> {
    [Lit("Once upon a time, "), Lit("in a magical "), Slot(SettingKey), Lit(", there lived a "),
     Lit("little "), Slot(Character1Key), Lit(" named "), Slot(Character1NameKey), Lit(".")]
  }
  function Adventure1(): seq<Piece> {
    [Lit("One "), Slot(FeelingKey), Lit(" morning, "), Slot(BabyNameKey), Lit(" and "),
     Slot(Character1NameKey), Lit(" decided to go on "), Lit("an adventure.")]
  }
  function Adventure2(): seq<Piece> {
    [Lit("They met "), Slot(Character2NameKey), Lit(" the "), Slot(Character2Key), Lit(" who was "),
     Slot(Character2ActionKey), Lit(".")]
  }
  function Adventure3(): seq<Piece> {
    [Lit("Together, they "), Lit("discovered "), Slot(DiscoveryKey), Lit(" and learned about "),
     Slot(LessonKey), Lit(".")]
  }
  function Adventure4(): seq<Piece> {
    [Lit("With "), Slot(Character3NameKey), Lit(" the "), Slot(Character3Key),
     Lit(" joining them, they "), Lit("had the most "), Lit("wonderful time.")]
  }
  function Adventure5(): seq<Piece> {
    [Lit("At the end of their "), Lit("adventure, "), Slot(BabyNameKey), Lit(" felt so "),
     Slot(FeelingKey), Lit(" and proud.")]
  }
  function Adventure6(): seq<Piece> {
    [Lit("They all became the "), Lit("best of friends and "), Lit("promised to have "),
     Lit("more adventures "), Lit("together.")]
  }
  function Adventure7(): seq<Piece> {
    [Lit("And "), Slot(BabyNameKey), Lit(" fell asleep with a "), Lit("big smile, dreaming "),
     Lit("of tomorrow's fun.")]
  }
  function AdventureTemplate(): seq<seq<Piece>> {
    [Adventure0(), Adventure1(), Adventure2(), Adventure3(), Adventure4(), Adventure5(), Adventure6(), Adventure7()]
  }

  /** The friendship template, `storyGenerator.ts:16-23`, one sentence per constant. */
  function Friendship0(): seq<Piece> {
    [Lit("In a cozy "), Slot(SettingKey), Lit(", "), Slot(BabyNameKey), Lit(" met a sweet "),
     Slot(Character1Key), Lit(" named "), Slot(Character1NameKey), Lit(".")]
  }
  function Friendship1(): seq<Piece> {
    [Lit("At first, "), Slot(BabyNameKey), Lit(" was a little shy, "), Lit("but "),
     Slot(Character1NameKey), Lit(" was so "), Slot(FeelingKey), Lit(" and welcoming.")]
  }
  function Friendship2(): seq<Piece> {
    [Slot(Character1NameKey), Lit(" showed "), Slot(BabyNameKey), Lit(" how to "),
     Slot(FriendlyActionKey), Lit(".")]
  }
  function Friendship3(): seq<Piece> {
    [Lit("Soon, "), Slot(Character2NameKey), Lit(" the "), Slot(Character2Key),
     Lit(" came to play too.")]
  }
  function Friendship4(): seq<Piece> {
    [Lit("They all learned "), Lit("that "), Slot(LessonKey), Lit(" makes friendships "),
     Lit("even stronger.")]
  }
  function Friendship5(): seq<Piece> {
    [Lit("When "), Slot(Character3NameKey), Lit(" the "), Slot(Character3Key),
     Lit(" felt sad, they all "), Lit("worked together to "), Lit("help.")]
  }
  function Friendship6(): seq<Piece> {
    [Slot(BabyNameKey), Lit(" discovered that "), Lit("having friends "), Lit("makes everything "),
     Lit("more "), Slot(FeelingKey), Lit(".")]
  }
  function Friendship7(): seq<Piece> {
    [Lit("That night, "), Slot(BabyNameKey), Lit(" hugged their new "),
     Lit("friends and felt so "), Lit("loved.")]
  }
  function FriendshipTemplate(): seq<seq<Piece>> {
    [Friendship0(), Friendship1(), Friendship2(), Friendship3(), Friendship4(), Friendship5(), Friendship6(), Friendship7()]
  }

  /** The learning template, `storyGenerator.ts:26-33`, one sentence per constant. */
  function Learning0(): seq<Piece> {
    [Slot(BabyNameKey), Lit(" was a very "), Slot(FeelingKey), Lit(" little one who "),
     Lit("loved to explore.")]
  }
  function Learning1(): seq<Piece> {
    [Lit("In the beautiful "), Slot(SettingKey), Lit(", there was so much "), Lit("to discover!")]
  }
  function Learning2(): seq<Piece> {
    [Slot(Character1NameKey), Lit(" the "), Slot(Character1Key), Lit(" taught "), Slot(BabyNameKey),
     Lit(" about "), Slot(LearningTopicKey), Lit(".")]
  }
  function Learning3(): seq<Piece> {
    [Lit("Then "), Slot(Character2NameKey), Lit(" the "), Slot(Character2Key), Lit(" showed them "),
     Slot(SkillKey), Lit(".")]
  }
  function Learning4(): seq<Piece> {
    [Slot(Character3NameKey), Lit(" the "), Slot(Character3Key), Lit(" helped "), Slot(BabyNameKey),
     Lit(" practice being "), Slot(LessonKey), Lit(".")]
  }
  function Learning5(): seq<Piece> {
    [Lit("Every day brought "), Lit("new things to learn "), Lit("and explore.")]
  }
  function Learning6(): seq<Piece> {
    [Slot(BabyNameKey), Lit(" grew "), Slot(FeelingKey), Lit(" and "), Slot(LessonKey),
     Lit(" with each new "), Lit("experience.")]
  }
  function Learning7(): seq<Piece> {
    [Lit("At bedtime, "), Slot(BabyNameKey), Lit(" was proud of all "), Lit("they had learned "),
     Lit("that day.")]
  }
  function LearningTemplate(): seq<seq<Piece>> {
    [Learning0(), Learning1(), Learning2(), Learning3(), Learning4(), Learning5(), Learning6(), Learning7()]
  }


  /** `templates[theme] || templates.adventure`: three themes have a
      template of their own; every other theme, including the form's
      `magic`, `nature` and `family`, gets the adventure template. */
  function Template(theme: string): (t: seq<seq<Piece>>)
    ensures |t| == 8
  {
    if theme == "friendship" then FriendshipTemplate()
    else if theme == "learning" then LearningTemplate()
    else AdventureTemplate()
  }

  /** `characterActions`, `storyGenerator.ts:37-41`. */
  function AdventureActions(): seq<PlainText> {
    ["playing in the sunshine", "collecting colorful flowers",
      "singing beautiful songs", "building sandcastles", "chasing butterflies"]
  }
  function FriendlyActions(): seq<PlainText> {
    ["share toys", "sing together", "dance", "paint pictures", "read books"]
  }
  function LearningTopics(): seq<PlainText> {
    ["colors and shapes", "numbers and letters", "animal sounds", "how to be kind", "sharing and caring"]
  }

  /** `characterActions[theme] || characterActions.adventure`: a theme
      without a list draws from the adventure actions. */
  function ActionPool(theme: string): (pool: seq<PlainText>)
    ensures |pool| == 5
  {
    if theme == "friendship" then FriendlyActions()
    else if theme == "learning" then LearningTopics()
    else AdventureActions()
  }

  /** `discoveries`, `storyGenerator.ts:43-51`. */
  function ForestDiscoveries(): seq<PlainText> {
    ["a hidden waterfall", "a family of friendly deer", "rainbow-colored mushrooms", "singing birds"]
  }
  function OceanDiscoveries(): seq<PlainText> {
    ["sparkling seashells", "dancing dolphins", "a magical coral garden", "gentle sea turtles"]
  }
  function GardenDiscoveries(): seq<PlainText> {
    ["buzzing bees making honey", "butterflies dancing", "growing vegetables", "singing flowers"]
  }
  function CastleDiscoveries(): seq<PlainText> {
    ["a room full of books", "friendly dragons", "magical paintings", "treasure chests"]
  }
  function FarmDiscoveries(): seq<PlainText> {
    ["baby animals playing", "fresh strawberries", "a kind farmer", "golden wheat fields"]
  }
  function SpaceDiscoveries(): seq<PlainText> {
    ["twinkling stars", "friendly planets", "shooting stars", "moon rabbits"]
  }
  function HomeDiscoveries(): seq<PlainText> {
    ["cozy reading nooks", "warm cookies", "family photos", "soft blankets"]
  }

  /** `discoveries[setting] || discoveries.forest`. */
  function DiscoveryPool(setting: string): (pool: seq<PlainText>)
    ensures |pool| == 4
  {
    if setting == "ocean" then OceanDiscoveries()
    else if setting == "garden" then GardenDiscoveries()
    else if setting == "castle" then CastleDiscoveries()
    else if setting == "farm" then FarmDiscoveries()
    else if setting == "space" then SpaceDiscoveries()
    else if setting == "home" then HomeDiscoveries()
    else ForestDiscoveries()
  }

  /** A setting the form does not offer draws from the forest list. */
  lemma DiscoveryPoolChoice(setting: string)
    ensures setting !in SettingOptions ==> DiscoveryPool(setting) == ForestDiscoveries()
  {
    if setting !in SettingOptions {
      assert setting != "ocean" && setting != "garden" && setting != "castle";
      assert setting != "farm" && setting != "space" && setting != "home";
    }
  }

  /** The names offered for each character type, `storyGenerator.ts:65-76`. */
  function BunnyNames(): seq<PlainText> {
    ["Fluffy", "Cotton", "Whiskers", "Snowy"]
  }
  function BearNames(): seq<PlainText> {
    ["Honey", "Teddy", "Cocoa", "Maple"]
  }
  function CatNames(): seq<PlainText> {
    ["Whiskers", "Luna", "Shadow", "Mittens"]
  }
  function DogNames(): seq<PlainText> {
    ["Buddy", "Sunny", "Chase", "Ruby"]
  }
  function ElephantNames(): seq<PlainText> {
    ["Ella", "Peanut", "Dumbo", "Grace"]
  }
  function LionNames(): seq<PlainText> {
    ["Leo", "Sunny", "Royal", "Brave"]
  }
  function MonkeyNames(): seq<PlainText> {
    ["Mango", "Zippy", "Banana", "Swing"]
  }
  function OwlNames(): seq<PlainText> {
    ["Hoot", "Wise", "Olive", "Luna"]
  }
  function FoxNames(): seq<PlainText> {
    ["Rusty", "Clever", "Amber", "Swift"]
  }
  function PenguinNames(): seq<PlainText> {
    ["Waddle", "Ice", "Splash", "Frost"]
  }
  /** The names of a character type without a list. */
  function FallbackNames(): seq<PlainText> {
    ["Friend"]
  }
  /** `names[character] || ['Friend']`. */
  function NamePool(character: string): (pool: seq<PlainText>)
    ensures |pool| >= 1
  {
    if character == "Bunny" then BunnyNames()
    else if character == "Bear" then BearNames()
    else if character == "Cat" then CatNames()
    else if character == "Dog" then DogNames()
    else if character == "Elephant" then ElephantNames()
    else if character == "Lion" then LionNames()
    else if character == "Monkey" then MonkeyNames()
    else if character == "Owl" then OwlNames()
    else if character == "Fox" then FoxNames()
    else if character == "Penguin" then PenguinNames()
    else FallbackNames()
  }

  /** Each character the form offers has a list of four names; any other
      type is a `Friend`. */
  lemma NamePoolChoice(c: string)
    ensures c in CharacterOptions <==> |NamePool(c)| == 4
    ensures c !in CharacterOptions ==> NamePool(c) == ["Friend"]
  {
    if c in CharacterOptions {
      var i :| 0 <= i < |CharacterOptions| && CharacterOptions[i] == c;
      assert |NamePool(CharacterOptions[i])| == 4;
    } else {
      assert c != "Bunny" && c != "Bear" && c != "Cat" && c != "Dog" && c != "Elephant";
      assert c != "Lion" && c != "Monkey" && c != "Owl" && c != "Fox" && c != "Penguin";
    }
  }

  /** `getRandomItem`: `index` stands for `Math.floor(Math.random() * pool.length)`. */
  function GetRandomItem(pool: seq<PlainText>, index: nat): (r: PlainText)
    requires index < |pool|
    ensures r in pool
  {
    pool[index]
  }

  lemma DecIsWord(n: nat)
    ensures Word(Dec(n))
  {
    var d := Dec(n);
    assert forall k :: 0 <= k < |d| ==> d[k] != '{' && d[k] != '}';
  }

  /** The dictionary key `character${n}Name`. */
  function NameKey(n: nat): Name {
    DecIsWord(n);
    "character" + Dec(n) + "Name"
  }

  /** The dictionary key `character${n}`. */
  function TypeKey(n: nat): Name {
    DecIsWord(n);
    "character" + Dec(n)
  }

  /** Different characters get different keys, and a name key is never a
      type key. */
  lemma KeysDiffer(a: nat, b: nat)
    ensures NameKey(a) == NameKey(b) ==> a == b
    ensures TypeKey(a) == TypeKey(b) ==> a == b
    ensures NameKey(a) != TypeKey(b)
  {
    if NameKey(a) == NameKey(b) {
      assert Dec(a) == NameKey(a)[9..|NameKey(a)| - 4];
      assert Dec(b) == NameKey(b)[9..|NameKey(b)| - 4];
      DecInjective(a, b);
    }
    if TypeKey(a) == TypeKey(b) {
      assert Dec(a) == TypeKey(a)[9..] && Dec(b) == TypeKey(b)[9..];
      DecInjective(a, b);
    }
    var t := TypeKey(b);
    assert t[|t| - 1] == Dec(b)[|Dec(b)| - 1];
    assert NameKey(a)[|NameKey(a)| - 1] == 'e';
  }

  predicate NamePicksInRange(characters: seq<string>, picks: seq<nat>) {
    |picks| == |characters| && forall i :: 0 <= i < |characters| ==> picks[i] < |NamePool(characters[i])|
  }

  /** The name drawn for each character: `picks[i]` stands for the
      `Math.random()` draw made for the character at index `i`. */
  function DrawnNames(characters: seq<string>, picks: seq<nat>): (r: seq<PlainText>)
    requires NamePicksInRange(characters, picks)
    ensures |r| == |characters|
    ensures forall i :: 0 <= i < |r| ==> r[i] in NamePool(characters[i])
  {
    seq(|characters|, i requires 0 <= i < |characters| => GetRandomItem(NamePool(characters[i]), picks[i]))
  }

  /** The dictionary `generateCharacterNames` builds from the drawn names,
      as its entries in insertion order. */
  function CharacterNames(characters: seq<string>, drawn: seq<PlainText>): (r: seq<Binding>)
    requires |drawn| == |characters|
    ensures |r| == 2 * |characters|
    decreases |characters|
  {
    if characters == [] then []
    else
      var n := |characters|;
      CharacterNames(characters[..n - 1], drawn[..n - 1])
        + [Binding(NameKey(n), drawn[n - 1]), Binding(TypeKey(n), LowerString(characters[n - 1]))]
  }

  /** The character at index `i` contributes its drawn name under
      `character{i+1}Name` and its type in lower case under
      `character{i+1}`. */
  lemma {:induction false} CharacterNamesAt(characters: seq<string>, drawn: seq<PlainText>, i: nat)
    requires |drawn| == |characters| && i < |characters|
    ensures var r := CharacterNames(characters, drawn);
      && r[2 * i] == Binding(NameKey(i + 1), drawn[i])
      && r[2 * i + 1] == Binding(TypeKey(i + 1), LowerString(characters[i]))
    decreases |characters|
  {
    var n := |characters|;
    if i < n - 1 {
      CharacterNamesAt(characters[..n - 1], drawn[..n - 1], i);
    }
  }

  /** The keys alone: `character{i+1}Name` at `2 * i`, `character{i+1}` at
      `2 * i + 1`. */
  lemma CharacterKeysAt(characters: seq<string>, drawn: seq<PlainText>, k: nat)
    requires |drawn| == |characters| && k < 2 * |characters|
    ensures k / 2 < |characters|
    ensures CharacterNames(characters, drawn)[k].key == if k % 2 == 0 then NameKey(k / 2 + 1) else TypeKey(k / 2 + 1)
  {
    CharacterNamesAt(characters, drawn, k / 2);
    assert k == 2 * (k / 2) + k % 2;
  }

  /** `generateCharacterNames`. */
  method GenerateCharacterNames(characters: seq<string>, picks: seq<nat>) returns (result: seq<Binding>)
    requires NamePicksInRange(characters, picks)
    ensures result == CharacterNames(characters, DrawnNames(characters, picks))
  {
    ghost var drawn := DrawnNames(characters, picks);
    result := [];
    var index := 0;
    while index < |characters|
      invariant 0 <= index <= |characters|
      invariant result == CharacterNames(characters[..index], drawn[..index])
    {
      var pool := NamePool(characters[index]);
      var name := GetRandomItem(pool, picks[index]);
      assert characters[..index + 1][..index] == characters[..index];
      assert drawn[..index + 1][..index] == drawn[..index];
      assert name == drawn[index];
      result := result + [Binding(NameKey(index + 1), name),
                          Binding(TypeKey(index + 1), LowerString(characters[index]))];
      index := index + 1;
    }
    assert characters[..index] == characters && drawn[..index] == drawn;
  }

  /** Every key is set once, so no entry of the dictionary overwrites an
      earlier one and the list of entries is the dictionary. */
  lemma CharacterKeysDistinct(characters: seq<string>, drawn: seq<PlainText>)
    requires |drawn| == |characters|
    ensures var r := CharacterNames(characters, drawn);
      forall i, j :: 0 <= i < j < |r| ==> r[i].key != r[j].key
  {
    var r := CharacterNames(characters, drawn);
    forall i, j | 0 <= i < j < |r| ensures r[i].key != r[j].key {
      CharacterKeysAt(characters, drawn, i);
      CharacterKeysAt(characters, drawn, j);
      EntryKeysDiffer(i, j);
    }
  }

  /** Two different positions of the dictionary's entry list carry two
      different keys. */
  lemma EntryKeysDiffer(i: nat, j: nat)
    requires i != j
    ensures (if i % 2 == 0 then NameKey(i / 2 + 1) else TypeKey(i / 2 + 1))
         != (if j % 2 == 0 then NameKey(j / 2 + 1) else TypeKey(j / 2 + 1))
  {
    var a, b := i / 2 + 1, j / 2 + 1;
    if i % 2 == j % 2 {
      assert i == 2 * (i / 2) + i % 2 && j == 2 * (j / 2) + j % 2;
      assert a != b;
      KeysDiffer(a, b);
    } else {
      KeysDiffer(a, b);
      KeysDiffer(b, a);
    }
  }

  lemma NameKeyBound(characters: seq<string>, drawn: seq<PlainText>, n: nat)
    requires |drawn| == |characters| && 1 <= n <= |characters|
    ensures Binds(CharacterNames(characters, drawn), NameKey(n))
  {
    var r := CharacterNames(characters, drawn);
    var i := n - 1;
    CharacterNamesAt(characters, drawn, i);
    var e := r[2 * i];
    assert e.key == NameKey(i + 1);
    assert 0 <= 2 * i < |r| && r[2 * i].key == NameKey(n);
  }

  lemma NameKeyOnlyNumbered(characters: seq<string>, drawn: seq<PlainText>, n: nat)
    requires |drawn| == |characters| && Binds(CharacterNames(characters, drawn), NameKey(n))
    ensures 1 <= n <= |characters|
  {
    var r := CharacterNames(characters, drawn);
    var i :| 0 <= i < |r| && r[i].key == NameKey(n);
    CharacterKeysAt(characters, drawn, i);
    KeysDiffer(n, i / 2 + 1);
    KeysDiffer(i / 2 + 1, n);
  }

  /** The dictionary binds `character{n}Name` exactly for the numbers `n`
      of the given characters, 1 to `|characters|`. */
  lemma CharacterNamesBindName(characters: seq<string>, drawn: seq<PlainText>, n: nat)
    requires |drawn| == |characters|
    ensures Binds(CharacterNames(characters, drawn), NameKey(n)) <==> 1 <= n <= |characters|
  {
    if 1 <= n <= |characters| {
      NameKeyBound(characters, drawn, n);
    } else if Binds(CharacterNames(characters, drawn), NameKey(n)) {
      NameKeyOnlyNumbered(characters, drawn, n);
    }
  }

  lemma TypeKeyBound(characters: seq<string>, drawn: seq<PlainText>, n: nat)
    requires |drawn| == |characters| && 1 <= n <= |characters|
    ensures Binds(CharacterNames(characters, drawn), TypeKey(n))
  {
    var r := CharacterNames(characters, drawn);
    var i := n - 1;
    CharacterNamesAt(characters, drawn, i);
    var e := r[2 * i + 1];
    assert e.key == TypeKey(i + 1);
    assert 0 <= 2 * i + 1 < |r| && r[2 * i + 1].key == TypeKey(n);
  }

  lemma TypeKeyOnlyNumbered(characters: seq<string>, drawn: seq<PlainText>, n: nat)
    requires |drawn| == |characters| && Binds(CharacterNames(characters, drawn), TypeKey(n))
    ensures 1 <= n <= |characters|
  {
    var r := CharacterNames(characters, drawn);
    var i :| 0 <= i < |r| && r[i].key == TypeKey(n);
    CharacterKeysAt(characters, drawn, i);
    KeysDiffer(i / 2 + 1, n);
  }

  /** The same for `character{n}`: no other key of either form is set. */
  lemma CharacterNamesBindType(characters: seq<string>, drawn: seq<PlainText>, n: nat)
    requires |drawn| == |characters|
    ensures Binds(CharacterNames(characters, drawn), TypeKey(n)) <==> 1 <= n <= |characters|
  {
    if 1 <= n <= |characters| {
      TypeKeyBound(characters, drawn, n);
    } else if Binds(CharacterNames(characters, drawn), TypeKey(n)) {
      TypeKeyOnlyNumbered(characters, drawn, n);
    }
  }

  lemma LowerPlain(s: string)
    requires Plain(s)
    ensures Plain(LowerString(s))
  {
    var l := LowerString(s);
    forall k | 0 <= k < |l| ensures l[k] != '{' { assert s[k] != '{'; }
  }

  /** With brace-free character types, every value in the dictionary is
      brace-free. */
  lemma CharacterNamesPlain(characters: seq<string>, drawn: seq<PlainText>)
    requires |drawn| == |characters|
    requires forall i :: 0 <= i < |characters| ==> Plain(characters[i])
    ensures ValuesArePlain(CharacterNames(characters, drawn))
  {
    var r := CharacterNames(characters, drawn);
    forall i | 0 <= i < |r| ensures Plain(r[i].value) {
      CharacterNamesAt(characters, drawn, i / 2);
      LowerPlain(characters[i / 2]);
      assert i == 2 * (i / 2) + i % 2;
    }
  }

  /** The text that replaces `{skill}`. */
  const Skill: PlainText := "how to be gentle and kind"

  /** The four `getRandomItem` draws one `replacePlaceholders` call makes,
      for `{character2Action}`, `{discovery}`, `{friendlyAction}` and
      `{learningTopic}`; each is drawn whether or not the sentence has the
      placeholder. */
  datatype Draws = Draws(action: nat, discovery: nat, friendly: nat, learning: nat)

  /** Each draw is an index into its list: five actions per theme, four
      discoveries per setting, five friendly actions, five topics. */
  predicate DrawsInRange(d: Draws) {
    d.action < 5 && d.discovery < 4 && d.friendly < 5 && d.learning < 5
  }

  /** The replaces of the basic parameters, in source order. */
  function BasicBindings(params: StoryParams): seq<Binding> {
    [Binding(BabyNameKey, params.babyName), Binding(SettingKey, params.setting),
     Binding(FeelingKey, params.feeling), Binding(LessonKey, params.lesson),
     Binding(ThemeKey, params.theme)]
  }

  /** The dynamic content one `replacePlaceholders` call draws. */
  datatype Content = Content(action: PlainText, discovery: PlainText, friendly: PlainText, learning: PlainText)

  /** The content drawn with the given indices: the action from the
      theme's list, the discovery from the setting's, the friendly action
      and the learning topic from the fixed lists. */
  function Drawn(params: StoryParams, d: Draws): (c: Content)
    requires DrawsInRange(d)
    ensures c.action in ActionPool(params.theme) && c.discovery in DiscoveryPool(params.setting)
    ensures c.friendly in FriendlyActions() && c.learning in LearningTopics()
  {
    Content(GetRandomItem(ActionPool(params.theme), d.action),
            GetRandomItem(DiscoveryPool(params.setting), d.discovery),
            GetRandomItem(FriendlyActions(), d.friendly),
            GetRandomItem(LearningTopics(), d.learning))
  }

  /** The replaces of the dynamic content, in source order. */
  function DynamicBindings(c: Content): seq<Binding> {
    [Binding(Character2ActionKey, c.action), Binding(DiscoveryKey, c.discovery),
     Binding(FriendlyActionKey, c.friendly), Binding(LearningTopicKey, c.learning),
     Binding(SkillKey, Skill)]
  }

  /** Every replace `replacePlaceholders` makes, in order: the basic
      parameters, the dictionary's keys, then the dynamic content. */
  function SentenceBindings(params: StoryParams, names: seq<Binding>, c: Content): seq<Binding> {
    BasicBindings(params) + names + DynamicBindings(c)
  }

  /** The first phase of `replacePlaceholders`: the five basic
      parameters. */
  method ReplaceBasic(sentence: string, params: StoryParams) returns (result: string)
    ensures result == ReplaceEach(sentence, BasicBindings(params))
  {
    var basic := BasicBindings(params);
    result := ReplaceAll(sentence, Placeholder(BabyNameKey), params.babyName);
    ReplaceEachSnoc(sentence, [], basic[0]);
    assert [] + [basic[0]] == basic[..1];
    result := ReplaceAll(result, Placeholder(SettingKey), params.setting);
    ReplaceEachSnoc(sentence, basic[..1], basic[1]);
    assert basic[..2] == basic[..1] + [basic[1]];
    result := ReplaceAll(result, Placeholder(FeelingKey), params.feeling);
    ReplaceEachSnoc(sentence, basic[..2], basic[2]);
    assert basic[..3] == basic[..2] + [basic[2]];
    result := ReplaceAll(result, Placeholder(LessonKey), params.lesson);
    ReplaceEachSnoc(sentence, basic[..3], basic[3]);
    assert basic[..4] == basic[..3] + [basic[3]];
    result := ReplaceAll(result, Placeholder(ThemeKey), params.theme);
    ReplaceEachSnoc(sentence, basic[..4], basic[4]);
    assert basic == basic[..4] + [basic[4]];
  }

  /** The second phase: one replace per dictionary entry, in the
      dictionary's order. */
  method ReplaceNames(text: string, names: seq<Binding>) returns (result: string)
    ensures result == ReplaceEach(text, names)
  {
    result := text;
    var i := 0;
    while i < |names|
      invariant 0 <= i <= |names|
      invariant result == ReplaceEach(text, names[..i])
    {
      ReplaceEachSnoc(text, names[..i], names[i]);
      assert names[..i] + [names[i]] == names[..i + 1];
      result := ReplaceAll(result, Placeholder(names[i].key), names[i].value);
      i := i + 1;
    }
    assert names[..i] == names;
  }

  /** The third phase: the drawn content and the fixed skill. */
  method ReplaceDynamic(text: string, params: StoryParams, d: Draws) returns (result: string)
    requires DrawsInRange(d)
    ensures result == ReplaceEach(text, DynamicBindings(Drawn(params, d)))
  {
    var dynamic := DynamicBindings(Drawn(params, d));
    var action := GetRandomItem(ActionPool(params.theme), d.action);
    var discovery := GetRandomItem(DiscoveryPool(params.setting), d.discovery);
    var friendly := GetRandomItem(FriendlyActions(), d.friendly);
    var topic := GetRandomItem(LearningTopics(), d.learning);
    result := ReplaceAll(text, Placeholder(Character2ActionKey), action);
    ReplaceEachSnoc(text, [], dynamic[0]);
    assert [] + [dynamic[0]] == dynamic[..1];
    result := ReplaceAll(result, Placeholder(DiscoveryKey), discovery);
    ReplaceEachSnoc(text, dynamic[..1], dynamic[1]);
    assert dynamic[..2] == dynamic[..1] + [dynamic[1]];
    result := ReplaceAll(result, Placeholder(FriendlyActionKey), friendly);
    ReplaceEachSnoc(text, dynamic[..2], dynamic[2]);
    assert dynamic[..3] == dynamic[..2] + [dynamic[2]];
    result := ReplaceAll(result, Placeholder(LearningTopicKey), topic);
    ReplaceEachSnoc(text, dynamic[..3], dynamic[3]);
    assert dynamic[..4] == dynamic[..3] + [dynamic[3]];
    result := ReplaceAll(result, Placeholder(SkillKey), Skill);
    ReplaceEachSnoc(text, dynamic[..4], dynamic[4]);
    assert dynamic == dynamic[..4] + [dynamic[4]];
  }

  /** `replacePlaceholders`: the three phases in order. */
  method ReplacePlaceholders(sentence: string, params: StoryParams, names: seq<Binding>, d: Draws)
    returns (result: string)
    requires DrawsInRange(d)
    ensures result == ReplaceEach(sentence, SentenceBindings(params, names, Drawn(params, d)))
  {
    var basic := BasicBindings(params);
    var dynamic := DynamicBindings(Drawn(params, d));
    result := ReplaceBasic(sentence, params);
    result := ReplaceNames(result, names);
    ReplaceEachAppend(sentence, basic, names);
    result := ReplaceDynamic(result, params, d);
    ReplaceEachAppend(sentence, basic + names, dynamic);
  }

  /** The separator `formatStory` splits at. */
  const SentenceBreak: string := ". "

  /** Each piece with the separator put back. */
  function Terminated(xs: seq<string>): (r: seq<string>)
    ensures |r| == |xs|
    ensures forall i :: 0 <= i < |xs| ==> r[i] == xs[i] + SentenceBreak
  {
    seq(|xs|, i requires 0 <= i < |xs| => xs[i] + SentenceBreak)
  }

  /** The paragraphs `formatStory` collects: every piece of the split but
      the last with its separator put back, then the last piece unless it
      is empty. Each paragraph holds one piece: a non-empty paragraph ends
      in the separator, so the branch that would append a second piece to
      it is never taken. */
  function Paragraphs(story: string): (r: seq<string>)
    ensures forall i :: 0 <= i < |r| ==> r[i] != ""
  {
    Regroup(Split(story, SentenceBreak))
  }

  /** The paragraphs of the pieces of a split. */
  function Regroup(pieces: seq<string>): seq<string>
    requires |pieces| >= 1
  {
    var n := |pieces|;
    Terminated(pieces[..n - 1]) + (if pieces[n - 1] == "" then [] else [pieces[n - 1]])
  }

  lemma {:induction false} ConcatTerminated(xs: seq<string>, last: string)
    ensures Concat(Terminated(xs) + [last]) == Join(xs + [last], SentenceBreak)
    decreases |xs|
  {
    if xs == [] {
      assert Terminated(xs) + [last] == [last];
      assert xs + [last] == [last];
    } else {
      var t := Terminated(xs) + [last];
      assert t[1..] == Terminated(xs[1..]) + [last];
      assert (xs + [last])[1..] == xs[1..] + [last];
      ConcatTerminated(xs[1..], last);
    }
  }

  /** No text is lost or added: the paragraphs put together are the story. */
  lemma ParagraphsConcat(story: string)
    ensures Concat(Paragraphs(story)) == story
  {
    var pieces := Split(story, SentenceBreak);
    var n := |pieces|;
    var front := pieces[..n - 1];
    var last := pieces[n - 1];
    assert pieces == front + [last];
    ConcatTerminated(front, last);
    assert Join(pieces, SentenceBreak) == story;
    if last == "" {
      ConcatAppend(Terminated(front), [last]);
      assert Concat([last]) == "";
      assert Paragraphs(story) == Terminated(front);
    } else {
      assert Paragraphs(story) == Terminated(front) + [last];
    }
  }

  /** One paragraph per piece of the split, the i-th being the i-th piece
      with its separator; only an empty last piece makes no paragraph. */
  lemma ParagraphsShape(story: string)
    ensures var pieces := Split(story, SentenceBreak);
      var r := Paragraphs(story);
      && |r| == (if pieces[|pieces| - 1] == "" then |pieces| - 1 else |pieces|)
      && (forall i :: 0 <= i < |pieces| - 1 ==> r[i] == pieces[i] + SentenceBreak)
      && (pieces[|pieces| - 1] != "" ==> r[|r| - 1] == pieces[|pieces| - 1])
  {
  }

  /** The formatted story read character by character: the story with a
      blank line after every `. ` that the split finds, except one that
      ends the story. */
  function ParagraphBreaks(s: string): string
    decreases |s|
  {
    if |s| < 2 then s
    else if s[..2] == SentenceBreak then (if |s| == 2 then s else ". \n\n" + ParagraphBreaks(s[2..]))
    else [s[0]] + ParagraphBreaks(s[1..])
  }

  lemma JoinCons(x: string, ys: seq<string>, sep: string)
    requires ys != []
    ensures Join([x] + ys, sep) == x + sep + Join(ys, sep)
  {
    assert ([x] + ys)[1..] == ys;
  }

  /** A text that does not start a separator adds its first character to
      the first paragraph of the rest. */
  lemma ParagraphsCons(s: string)
    requires |s| >= 2 && s[..2] != SentenceBreak
    ensures var r := Paragraphs(s[1..]);
      r != [] && Paragraphs(s) == [[s[0]] + r[0]] + r[1..]
  {
    var rest := Split(s[1..], SentenceBreak);
    assert Split(s, SentenceBreak) == [[s[0]] + rest[0]] + rest[1..];
    assert rest[0] == s[1..] || |rest| > 1;
    RegroupCons(s[0], rest);
  }

  /** Putting a character in front of the first piece puts it in front
      of the first paragraph. */
  lemma RegroupCons(c: char, pieces: seq<string>)
    requires |pieces| >= 1 && (pieces[0] != "" || |pieces| > 1)
    ensures var r := Regroup(pieces);
      r != [] && Regroup([[c] + pieces[0]] + pieces[1..]) == [[c] + r[0]] + r[1..]
  {
    var n := |pieces|;
    var q := [[c] + pieces[0]] + pieces[1..];
    if n > 1 {
      assert q[..n - 1] == [[c] + pieces[0]] + pieces[1..n - 1];
      assert pieces[..n - 1] == [pieces[0]] + pieces[1..n - 1];
      TerminatedCons([c] + pieces[0], pieces[1..n - 1]);
      TerminatedCons(pieces[0], pieces[1..n - 1]);
      var mid := Terminated(pieces[1..n - 1]);
      var tail := if pieces[n - 1] == "" then [] else [pieces[n - 1]];
      assert q[n - 1] == pieces[n - 1];
      assert Regroup(q) == [[c] + pieces[0] + SentenceBreak] + mid + tail;
      var r := Regroup(pieces);
      assert r == [pieces[0] + SentenceBreak] + mid + tail;
      assert r[0] == pieces[0] + SentenceBreak && r[1..] == mid + tail;
      assert [c] + pieces[0] + SentenceBreak == [c] + r[0];
    }
  }

  lemma TerminatedCons(x: string, xs: seq<string>)
    ensures Terminated([x] + xs) == [x + SentenceBreak] + Terminated(xs)
  {
    var l, r := Terminated([x] + xs), [x + SentenceBreak] + Terminated(xs);
    assert |l| == |r|;
    forall i | 0 <= i < |l| ensures l[i] == r[i] {
      if i > 0 { assert ([x] + xs)[i] == xs[i - 1]; }
    }
  }

  /** A text that starts with the separator opens with a paragraph of its
      own. */
  lemma ParagraphsSeparator(s: string)
    requires |s| > 2 && s[..2] == SentenceBreak
    ensures var r := Paragraphs(s[2..]);
      r != [] && Paragraphs(s) == [SentenceBreak] + r
  {
    var t := s[2..];
    var rest := Split(t, SentenceBreak);
    var pieces := Split(s, SentenceBreak);
    var n := |rest|;
    assert pieces == [""] + rest;
    assert pieces[..n] == [""] + rest[..n - 1];
    assert Terminated(pieces[..n]) == [SentenceBreak] + Terminated(rest[..n - 1]);
    ParagraphsConcat(t);
  }

  /** The paragraphs joined by blank lines are the story with a blank line
      after each `. ` but a final one. */
  lemma {:induction false} ParagraphBreaksJoin(s: string)
    ensures Join(Paragraphs(s), "\n\n") == ParagraphBreaks(s)
    decreases |s|
  {
    if |s| < 2 {
      assert Split(s, SentenceBreak) == [s];
    } else if s[..2] == SentenceBreak {
      if |s| == 2 {
        assert Split(s[2..], SentenceBreak) == [""];
        assert Split(s, SentenceBreak) == ["", ""];
        assert Paragraphs(s) == [SentenceBreak];
      } else {
        ParagraphBreaksJoin(s[2..]);
        JoinAfterSeparator(s);
      }
    } else {
      ParagraphBreaksJoin(s[1..]);
      JoinAfterCharacter(s);
    }
  }

  lemma JoinAfterSeparator(s: string)
    requires |s| > 2 && s[..2] == SentenceBreak
    ensures Join(Paragraphs(s), "\n\n") == ". \n\n" + Join(Paragraphs(s[2..]), "\n\n")
  {
    ParagraphsSeparator(s);
    JoinCons(SentenceBreak, Paragraphs(s[2..]), "\n\n");
  }

  lemma JoinAfterCharacter(s: string)
    requires |s| >= 2 && s[..2] != SentenceBreak
    ensures Join(Paragraphs(s), "\n\n") == [s[0]] + Join(Paragraphs(s[1..]), "\n\n")
  {
    ParagraphsCons(s);
    var r := Paragraphs(s[1..]);
    if |r| == 1 {
      assert Paragraphs(s) == [[s[0]] + r[0]];
    } else {
      assert r == [r[0]] + r[1..];
      JoinCons(r[0], r[1..], "\n\n");
      JoinCons([s[0]] + r[0], r[1..], "\n\n");
    }
  }

  /** Text without `.` passes through unchanged. */
  lemma {:induction false} ParagraphBreaksSkip(a: string, rest: string)
    requires '.' !in a
    ensures ParagraphBreaks(a + rest) == a + ParagraphBreaks(rest)
    decreases |a|
  {
    if a != [] {
      var s := a + rest;
      assert s[0] == a[0] && s[1..] == a[1..] + rest;
      if |s| >= 2 {
        assert s[..2][0] == a[0];
        ParagraphBreaksSkip(a[1..], rest);
        assert a == [a[0]] + a[1..];
      } else {
        assert rest == [] && a + rest == a;
      }
    } else {
      assert a + rest == rest;
    }
  }

  /** Formatting keeps every text that has no `.` and does not start with
      a space: no blank line is inserted inside it. */
  lemma {:induction false} ParagraphBreaksKeep(s: string, w: string)
    requires Contains(s, w) && '.' !in w && (w == [] || w[0] != ' ')
    ensures Contains(ParagraphBreaks(s), w)
    decreases |s|
  {
    if IsPrefix(w, s) {
      ParagraphBreaksSkip(w, s[|w|..]);
      assert w + s[|w|..] == s;
      ContainsItself(w);
      ContainsAppend(w, ParagraphBreaks(s[|w|..]), w);
    } else if |s| >= 2 && s[..2] == SentenceBreak {
      assert s[1..][0] == ' ';
      assert !IsPrefix(w, s[1..]);
      assert Contains(s[1..][1..], w);
      assert s[1..][1..] == s[2..];
      ParagraphBreaksKeep(s[2..], w);
      ContainsPrepend(". \n\n", ParagraphBreaks(s[2..]), w);
    } else {
      ParagraphBreaksKeep(s[1..], w);
      ContainsPrepend([s[0]], ParagraphBreaks(s[1..]), w);
    }
  }

  /** What starts the formatted text without a line break starts the
      text. */
  lemma {:induction false} ParagraphBreaksPrefix(s: string, w: string)
    requires IsPrefix(w, ParagraphBreaks(s)) && '\n' !in w
    ensures IsPrefix(w, s)
    decreases |s|
  {
    if |s| >= 2 && w != [] {
      var b := ParagraphBreaks(s);
      if s[..2] == SentenceBreak {
        if |s| > 2 {
          assert b[2] == '\n';
          assert |w| <= 2;
          assert b[..|w|] == s[..|w|];
        }
      } else {
        assert b == [s[0]] + ParagraphBreaks(s[1..]);
        assert w[1..] == ParagraphBreaks(s[1..])[..|w| - 1];
        ParagraphBreaksPrefix(s[1..], w[1..]);
        assert w == [w[0]] + w[1..];
      }
    }
  }

  /** A text without a line break starts only texts that have none where
      it lies. */
  lemma PrefixWithoutBreak(w: string, x: string)
    requires IsPrefix(w, x) && '\n' !in w
    ensures forall i :: 0 <= i < |w| ==> x[i] != '\n'
  {
    forall i | 0 <= i < |w| ensures x[i] != '\n' {
      assert x[i] == w[i];
    }
  }

  /** Formatting creates no text without a line break: whatever such text
      is in the formatted story is in the story. */
  lemma {:induction false} ParagraphBreaksOnlyBreaks(s: string, w: string)
    requires Contains(ParagraphBreaks(s), w) && '\n' !in w
    ensures Contains(s, w)
    decreases |s|
  {
    var b := ParagraphBreaks(s);
    if IsPrefix(w, b) {
      ParagraphBreaksPrefix(s, w);
    } else if |s| > 2 && s[..2] == SentenceBreak {
      var rest := ParagraphBreaks(s[2..]);
      assert b == ['.'] + ([' '] + (['\n'] + (['\n'] + rest)));
      ContainsCons('.', [' '] + (['\n'] + (['\n'] + rest)), w);
      ContainsCons(' ', ['\n'] + (['\n'] + rest), w);
      ContainsCons('\n', ['\n'] + rest, w);
      ContainsCons('\n', rest, w);
      if w != [] {
        assert w[0] != '\n';
        if IsPrefix(w, [' '] + (['\n'] + (['\n'] + rest))) {
          var x := [' '] + (['\n'] + (['\n'] + rest));
          PrefixWithoutBreak(w, x);
          assert x[1] == '\n';
          assert |w| <= 1;
          assert IsPrefix(w, s[1..]);
          ContainsSuffix(s, 1, w);
        } else {
          ParagraphBreaksOnlyBreaks(s[2..], w);
          ContainsSuffix(s, 2, w);
        }
      }
    } else if |s| >= 2 && s[..2] != SentenceBreak {
      ContainsCons(s[0], ParagraphBreaks(s[1..]), w);
      ParagraphBreaksOnlyBreaks(s[1..], w);
      ContainsSuffix(s, 1, w);
    }
  }

  /** `formatStory` of the offline generator. */
  method FormatStory(story: string) returns (r: string)
    ensures r == Join(Paragraphs(story), "\n\n")
    ensures r == ParagraphBreaks(story)
  {
    var sentences := Split(story, SentenceBreak);
    var n := |sentences|;
    var paragraphs: seq<string> := [];
    var current := "";
    var index := 0;
    while index < n
      invariant 0 <= index <= n
      invariant index == 0 ==> paragraphs == [] && current == ""
      invariant index > 0 ==> paragraphs == Terminated(sentences[..index - 1])
      invariant index > 0 ==> current == sentences[index - 1] + (if index < n then SentenceBreak else "")
    {
      var sentence := sentences[index];
      var ending := if index < n - 1 then SentenceBreak else "";
      if index > 0 {
        SplitEndingInSeparator(sentences[index - 1], SentenceBreak);
      }
      if current == "" {
        current := sentence + ending;
      } else if |Split(current, SentenceBreak)| >= 2 {
        assert Terminated(sentences[..index]) == Terminated(sentences[..index - 1]) + [current];
        paragraphs := paragraphs + [current];
        current := sentence + ending;
      } else {
        assert false;
      }
      index := index + 1;
    }
    assert current == sentences[n - 1];
    if current != "" {
      paragraphs := paragraphs + [current];
    }
    assert paragraphs == Regroup(sentences);
    r := Join(paragraphs, "\n\n");
    ParagraphBreaksJoin(story);
  }

  /** `storyGenerator.generateStory` makes one `Draws` per template
      sentence. */
  predicate StoryDrawsInRange(draws: seq<Draws>) {
    |draws| == 8 && forall i :: 0 <= i < 8 ==> DrawsInRange(draws[i])
  }

  /** The content drawn for each sentence. */
  function DrawnContents(params: StoryParams, draws: seq<Draws>): (r: seq<Content>)
    requires StoryDrawsInRange(draws)
    ensures |r| == 8
  {
    seq(8, i requires 0 <= i < 8 => Drawn(params, draws[i]))
  }

  /** The sentences of a template with their placeholders replaced, the
      i-th with the i-th content. */
  function FillSentences(template: seq<seq<Piece>>, params: StoryParams, names: seq<Binding>, contents: seq<Content>)
    : (r: seq<string>)
    requires |contents| == |template|
    ensures |r| == |template|
  {
    seq(|template|, i requires 0 <= i < |template| =>
      ReplaceEach(Render(template[i]), SentenceBindings(params, names, contents[i])))
  }

  /** The theme's template with its placeholders replaced, the i-th
      sentence with the i-th content. */
  function Sentences(params: StoryParams, names: seq<Binding>, contents: seq<Content>): (r: seq<string>)
    requires |contents| == 8
    ensures |r| == 8
  {
    FillSentences(Template(params.theme), params, names, contents)
  }

  /** A template's replaced sentences joined by single spaces. */
  function TextOf(template: seq<seq<Piece>>, params: StoryParams, names: seq<Binding>, contents: seq<Content>): string
    requires |contents| == |template|
  {
    Join(FillSentences(template, params, names, contents), " ")
  }

  /** The theme's sentences joined by single spaces, before formatting. */
  function StoryText(params: StoryParams, names: seq<Binding>, contents: seq<Content>): string
    requires |contents| == 8
  {
    TextOf(Template(params.theme), params, names, contents)
  }

  /** The story `generateStory` returns: its text in paragraphs separated
      by blank lines, which `ParagraphBreaksJoin` shows is the text with a
      blank line after each sentence break but a final one. */
  function Story(params: StoryParams, names: seq<Binding>, contents: seq<Content>): string
    requires |contents| == 8
  {
    ParagraphBreaks(StoryText(params, names, contents))
  }

  /** `template.map(sentence => replacePlaceholders(...))`. */
  method ReplaceTemplate(template: seq<seq<Piece>>, params: StoryParams, names: seq<Binding>, draws: seq<Draws>)
    returns (sentences: seq<string>)
    requires |template| == 8 && StoryDrawsInRange(draws)
    ensures sentences == FillSentences(template, params, names, DrawnContents(params, draws))
  {
    ghost var expected := FillSentences(template, params, names, DrawnContents(params, draws));
    sentences := [];
    var i := 0;
    while i < |template|
      invariant 0 <= i <= |template|
      invariant sentences == expected[..i]
    {
      var sentence := ReplacePlaceholders(Render(template[i]), params, names, draws[i]);
      assert DrawnContents(params, draws)[i] == Drawn(params, draws[i]);
      assert sentence == expected[i];
      assert expected[..i + 1] == expected[..i] + [sentence];
      sentences := sentences + [sentence];
      i := i + 1;
    }
    assert sentences == expected;
  }

  /** The theme's template (`templates[theme] || templates.adventure`),
      each sentence replaced, joined by single spaces. */
  method ComposeText(params: StoryParams, names: seq<Binding>, draws: seq<Draws>) returns (text: string)
    requires StoryDrawsInRange(draws)
    ensures text == StoryText(params, names, DrawnContents(params, draws))
  {
    var template := Template(params.theme);
    var sentences := ReplaceTemplate(template, params, names, draws);
    text := Join(sentences, " ");
  }

  /** `generateStory` of the offline generator. */
  method GenerateStory(params: StoryParams, namePicks: seq<nat>, draws: seq<Draws>) returns (story: string)
    requires NamePicksInRange(params.characters, namePicks)
    requires StoryDrawsInRange(draws)
    ensures story == Story(params, CharacterNames(params.characters, DrawnNames(params.characters, namePicks)),
                           DrawnContents(params, draws))
  {
    var names := GenerateCharacterNames(params.characters, namePicks);
    var text := ComposeText(params, names, draws);
    story := FormatStory(text);
  }
}
