/** The story form: the parameters it collects, its option lists and
    initial state, the character toggle (at most three, no repeats, in the
    order picked), the submit guard and the submit button's disabled rule. */
module StoryForm {

  /** `StoryParams`: what the form hands to the story services. */
  datatype StoryParams = StoryParams(
    babyName: string,
    babyAge: string,
    characters: seq<string>,
    feeling: string,
    theme: string,
    setting: string,
    lesson: string)

  const AgeOptions: seq<string> :=
    ["0-6 months", "6-12 months", "1-2 years", "2-3 years", "3-4 years", "4-5 years"]
  const CharacterOptions: seq<string> :=
    ["Bunny", "Bear", "Cat", "Dog", "Elephant", "Lion", "Monkey", "Owl", "Fox", "Penguin"]
  const FeelingOptions: seq<string> := ["happy", "excited", "calm", "curious", "brave", "kind"]
  const ThemeOptions: seq<string> := ["adventure", "friendship", "learning", "magic", "nature", "family"]
  const SettingOptions: seq<string> := ["forest", "ocean", "garden", "castle", "farm", "space", "home"]
  const LessonOptions: seq<string> := ["friendship", "sharing", "kindness", "courage", "honesty", "patience"]

  /** The toggle keeps at most this many characters (`slice(0, 3)`). */
  const MaxCharacters: nat := 3

  /** The alert shown when the text service has no model. */
  const NotConfiguredAlert: string :=
    "Gemini API is not configured. Please add your VITE_GEMINI_API_KEY to the environment variables."

  /** The form's initial state: no name, no characters, and a default that
      each drop-down offers. */
  function InitialFormData(): (f: StoryParams)
    ensures f.babyName == "" && f.characters == []
    ensures ValidForm(f)
  {
    var f := StoryParams("", "6-12 months", [], "happy", "adventure", "forest", "friendship");
    assert f.babyAge == AgeOptions[1] && f.feeling == FeelingOptions[0] && f.theme == ThemeOptions[0];
    assert f.setting == SettingOptions[0] && f.lesson == LessonOptions[0];
    f
  }

  predicate NoDuplicates(xs: seq<string>) {
    forall i, j :: 0 <= i < j < |xs| ==> xs[i] != xs[j]
  }

  /** A character selection the form can hold. */
  predicate ValidSelection(xs: seq<string>) {
    |xs| <= MaxCharacters && NoDuplicates(xs) && forall x :: x in xs ==> x in CharacterOptions
  }

  /** Every field is one the form's controls can produce. */
  predicate ValidForm(f: StoryParams) {
    && ValidSelection(f.characters)
    && f.babyAge in AgeOptions
    && f.feeling in FeelingOptions
    && f.theme in ThemeOptions
    && f.setting in SettingOptions
    && f.lesson in LessonOptions
  }

  /** `xs.filter(x => x !== c)`. */
  function Without(xs: seq<string>, c: string): (r: seq<string>)
    ensures forall x :: x in r <==> x in xs && x != c
    decreases |xs|
  {
    if xs == [] then []
    else if xs[0] == c then Without(xs[1..], c)
    else [xs[0]] + Without(xs[1..], c)
  }

  /** The character list after clicking character `c`: a selected `c`
      is gone afterwards, and nothing but `c` is ever added. */
  function Toggled(chars: seq<string>, c: string): (r: seq<string>)
    ensures c in chars ==> c !in r
    ensures forall x :: x in r ==> x in chars || x == c
    ensures c !in chars && |chars| < MaxCharacters ==> c in r
  {
    if c in chars then Without(chars, c)
    else
      var added := chars + [c];
      if |added| <= MaxCharacters then added else added[..MaxCharacters]
  }

  lemma {:induction false} WithoutAbsent(xs: seq<string>, c: string)
    requires c !in xs
    ensures Without(xs, c) == xs
    decreases |xs|
  {
    if xs != [] {
      WithoutAbsent(xs[1..], c);
      assert xs == [xs[0]] + xs[1..];
    }
  }

  lemma {:induction false} WithoutAppend(a: seq<string>, b: seq<string>, c: string)
    ensures Without(a + b, c) == Without(a, c) + Without(b, c)
    decreases |a|
  {
    if a == [] {
      assert a + b == b;
    } else {
      assert (a + b)[0] == a[0] && (a + b)[1..] == a[1..] + b;
      WithoutAppend(a[1..], b, c);
    }
  }

  lemma {:induction false} WithoutNoDuplicates(xs: seq<string>, c: string)
    requires NoDuplicates(xs)
    ensures NoDuplicates(Without(xs, c))
    decreases |xs|
  {
    if xs != [] {
      assert NoDuplicates(xs[1..]) by {
        forall i, j | 0 <= i < j < |xs[1..]| ensures xs[1..][i] != xs[1..][j] {
          assert xs[1..][i] == xs[i + 1] && xs[1..][j] == xs[j + 1];
        }
      }
      WithoutNoDuplicates(xs[1..], c);
      assert xs[0] !in xs[1..] by {
        forall j | 0 <= j < |xs[1..]| ensures xs[1..][j] != xs[0] {
          assert xs[1..][j] == xs[j + 1];
        }
      }
    }
  }

  /** Clicking a selected character removes it and keeps the others, in
      their order. */
  lemma ToggleDeselects(chars: seq<string>, i: nat)
    requires NoDuplicates(chars) && i < |chars|
    ensures Toggled(chars, chars[i]) == chars[..i] + chars[i + 1..]
  {
    var c := chars[i];
    assert chars == chars[..i] + [c] + chars[i + 1..];
    assert c !in chars[..i] by {
      forall k | 0 <= k < i ensures chars[..i][k] != c { assert chars[..i][k] == chars[k]; }
    }
    assert c !in chars[i + 1..] by {
      forall k | i < k < |chars| ensures chars[k] != c { }
    }
    WithoutAppend(chars[..i] + [c], chars[i + 1..], c);
    WithoutAppend(chars[..i], [c], c);
    WithoutAbsent(chars[..i], c);
    WithoutAbsent(chars[i + 1..], c);
  }

  /** Clicking an unselected character appends it while there is room;
      with three selected nothing changes. */
  lemma ToggleSelects(chars: seq<string>, c: string)
    requires c !in chars
    ensures |chars| < MaxCharacters ==> Toggled(chars, c) == chars + [c]
    ensures |chars| == MaxCharacters ==> Toggled(chars, c) == chars
  {
  }

  /** The toggle keeps the selection bounded, duplicate-free and within the
      offered characters. */
  lemma TogglePreservesSelection(chars: seq<string>, c: string)
    requires ValidSelection(chars) && c in CharacterOptions
    ensures ValidSelection(Toggled(chars, c))
  {
    if c in chars {
      WithoutNoDuplicates(chars, c);
      assert |Without(chars, c)| <= |chars| by { WithoutLength(chars, c); }
    } else {
      var added := chars + [c];
      assert NoDuplicates(added);
      var r := Toggled(chars, c);
      assert r == added[..|r|];
      assert NoDuplicates(r) by {
        forall i, j | 0 <= i < j < |r| ensures r[i] != r[j] { assert r[i] == added[i] && r[j] == added[j]; }
      }
      assert forall x :: x in r ==> x in added;
    }
  }

  lemma {:induction false} WithoutLength(xs: seq<string>, c: string)
    ensures |Without(xs, c)| <= |xs|
    decreases |xs|
  {
    if xs != [] {
      WithoutLength(xs[1..], c);
    }
  }

  /** Clicking an unselected character twice, with room for it, gives the
      selection back. */
  lemma ToggleTwice(chars: seq<string>, c: string)
    requires c !in chars && |chars| < MaxCharacters
    ensures Toggled(Toggled(chars, c), c) == chars
  {
    assert Toggled(chars, c) == chars + [c];
    WithoutAppend(chars, [c], c);
    WithoutAbsent(chars, c);
    assert Without([c], c) == [];
  }

  /** What pressing "Generate Story" does. */
  datatype SubmitAction =
    | Alert(message: string)     // the not-configured alert; nothing is submitted
    | Generate(params: StoryParams)  // `onGenerateStory(formData)`
    | Ignore                     // nothing happens

  /** `handleSubmit`: `configured` is `geminiService.isConfigured()`. */
  function HandleSubmit(form: StoryParams, configured: bool): (a: SubmitAction)
    ensures a.Generate? <==> configured && form.babyName != "" && |form.characters| > 0
    ensures a.Generate? ==> a.params == form
    ensures a.Alert? <==> !configured
  {
    if !configured then Alert(NotConfiguredAlert)
    else if form.babyName != "" && |form.characters| > 0 then Generate(form)
    else Ignore
  }

  /** The submit button's `disabled` attribute. While no story is being
      generated, the button is enabled exactly for the forms the
      configured guard submits. */
  predicate SubmitDisabled(isGenerating: bool, form: StoryParams)
    ensures !isGenerating ==> (!SubmitDisabled(isGenerating, form) <==> HandleSubmit(form, true).Generate?)
    ensures isGenerating ==> SubmitDisabled(isGenerating, form)
  {
    isGenerating || form.babyName == "" || |form.characters| == 0
  }

  /** The form component's state (`formData`) and the handlers that
      update it. */
  class Form {
    var formData: StoryParams

    ghost predicate Valid()
      reads this
    {
      ValidForm(formData)
    }

    constructor ()
      ensures Valid() && formData == InitialFormData()
    {
      formData := InitialFormData();
    }

    /** `handleCharacterToggle`, from a character button. */
    method HandleCharacterToggle(c: string)
      requires Valid() && c in CharacterOptions
      modifies this
      ensures Valid()
      ensures formData == old(formData).(characters := Toggled(old(formData).characters, c))
    {
      TogglePreservesSelection(formData.characters, c);
      formData := formData.(characters := Toggled(formData.characters, c));
    }

    /** The name input's `onChange`. */
    method SetBabyName(name: string)
      requires Valid()
      modifies this
      ensures Valid() && formData == old(formData).(babyName := name)
    {
      formData := formData.(babyName := name);
    }

    /** The age drop-down's `onChange`. */
    method SelectAge(age: string)
      requires Valid() && age in AgeOptions
      modifies this
      ensures Valid() && formData == old(formData).(babyAge := age)
    {
      formData := formData.(babyAge := age);
    }

    /** The feeling drop-down's `onChange`. */
    method SelectFeeling(feeling: string)
      requires Valid() && feeling in FeelingOptions
      modifies this
      ensures Valid() && formData == old(formData).(feeling := feeling)
    {
      formData := formData.(feeling := feeling);
    }

    /** The theme drop-down's `onChange`. */
    method SelectTheme(theme: string)
      requires Valid() && theme in ThemeOptions
      modifies this
      ensures Valid() && formData == old(formData).(theme := theme)
    {
      formData := formData.(theme := theme);
    }

    /** The setting drop-down's `onChange`. */
    method SelectSetting(setting: string)
      requires Valid() && setting in SettingOptions
      modifies this
      ensures Valid() && formData == old(formData).(setting := setting)
    {
      formData := formData.(setting := setting);
    }

    /** The lesson drop-down's `onChange`. */
    method SelectLesson(lesson: string)
      requires Valid() && lesson in LessonOptions
      modifies this
      ensures Valid() && formData == old(formData).(lesson := lesson)
    {
      formData := formData.(lesson := lesson);
    }
  }
}
