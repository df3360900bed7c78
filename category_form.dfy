/**
 * The "create listing category" form: the slug typed-in names produce, and
 * the schema the form's values must satisfy.
 */
module CategoryForm {
  import opened Wrappers
  import opened Text
  import opened Sequences

  /** The characters `[a-z0-9-]` the slug pattern admits. */
  predicate IsSlugChar(c: char) {
    ('a' <= c <= 'z') || ('0' <= c <= '9') || c == '-'
  }

  predicate AllSlugChars(s: string) {
    forall i :: 0 <= i < |s| ==> IsSlugChar(s[i])
  }

  /** `replace(/\s+/g, '-')`: each maximal run of white space becomes one hyphen; `inRun` says the previous character was white space. */
  function DashRuns(s: string, inRun: bool): string {
    if |s| == 0 then ""
    else if IsWhitespace(s[0]) then (if inRun then "" else "-") + DashRuns(s[1..], true)
    else [s[0]] + DashRuns(s[1..], false)
  }

  /** `replace(/[^a-z0-9-]/g, '')` */
  function KeepSlugChars(s: string): string {
    Filter(s, IsSlugChar)
  }

  /** The slug `handleNameChange` derives from a name. */
  function Slugify(name: string): string {
    KeepSlugChars(DashRuns(Lower(name), false))
  }

  /** Every generated slug is made of the characters the slug pattern admits. */
  lemma SlugifyUsesSlugChars(name: string)
    ensures AllSlugChars(Slugify(name))
  {
    var s := Slugify(name);
    FilterMembers(DashRuns(Lower(name), false), IsSlugChar);
    forall i | 0 <= i < |s| ensures IsSlugChar(s[i]) {
      assert s[i] in s;
    }
  }

  lemma {:induction false} DashRunsWithoutWhitespace(s: string, inRun: bool)
    requires forall i :: 0 <= i < |s| ==> !IsWhitespace(s[i])
    ensures DashRuns(s, inRun) == s
  {
    if |s| > 0 {
      DashRunsWithoutWhitespace(s[1..], false);
      assert [s[0]] + s[1..] == s;
    }
  }

  /** Slugifying a slug changes nothing: slug generation is idempotent. */
  lemma SlugifyIdempotent(name: string)
    ensures Slugify(Slugify(name)) == Slugify(name)
  {
    var s := Slugify(name);
    SlugifyUsesSlugChars(name);
    assert Lower(s) == s;
    DashRunsWithoutWhitespace(s, false);
    FilterKeepsAll(s, IsSlugChar);
  }

  /** A run of spaces between two words becomes one hyphen. */
  lemma SlugOfTwoWords()
    ensures Slugify("to  let") == "to-let"
  {
    assert Lower("to  let") == "to  let";
    assert DashRuns("let", true) == "let" by {
      DashRunsWithoutWhitespace("let", true);
    }
    assert DashRuns("to  let", false) == "to-let";
    FilterKeepsAll("to-let", IsSlugChar);
  }

  /** A name with no letter, digit or space yields the empty slug. */
  lemma PunctuationGivesEmptySlug()
    ensures Slugify("!") == ""
  {
    assert Lower("!") == "!";
    assert DashRuns("!", false) == "!";
  }

  // ------------------------------------------------------------ the schema

  /** The form's values; `icon` is optional. */
  datatype Category = Category(name: string, description: string, slug: string, icon: Option<string>)

  /** The form's initial values. */
  const Defaults := Category("", "", "", Some(""))

  datatype Issue = NameTooShort | DescriptionTooShort | SlugTooShort | SlugNotSlugChars

  /** `regex(/^[a-z0-9-]+$/)` */
  predicate MatchesSlugPattern(s: string) {
    |s| >= 1 && AllSlugChars(s)
  }

  /** The issues the schema reports, in field order; the slug can fail both of its checks. */
  function Issues(c: Category): (issues: seq<Issue>)
    ensures NameTooShort in issues <==> |c.name| < 2
    ensures DescriptionTooShort in issues <==> |c.description| < 10
    ensures SlugTooShort in issues <==> |c.slug| < 2
    ensures SlugNotSlugChars in issues <==> !MatchesSlugPattern(c.slug)
  {
    (if |c.name| < 2 then [NameTooShort] else [])
    + (if |c.description| < 10 then [DescriptionTooShort] else [])
    + (if |c.slug| < 2 then [SlugTooShort] else [])
    + (if MatchesSlugPattern(c.slug) then [] else [SlugNotSlugChars])
  }

  /** `formSchema.safeParse`: the values when every rule holds, the issues otherwise. */
  function SafeParse(c: Category): (r: Result<Category, seq<Issue>>)
    ensures r.Success? <==> |c.name| >= 2 && |c.description| >= 10 && |c.slug| >= 2 && AllSlugChars(c.slug)
    ensures r.Success? ==> r.value == c
    ensures r.Failure? ==> r.error == Issues(c) && |r.error| > 0
  {
    var issues := Issues(c);
    if |issues| == 0 then Success(c)
    else
      assert issues[0] in issues;
      Failure(issues)
  }

  /** The name `!` gives a slug that fails both slug checks. */
  lemma PunctuationSlugIsRejected(description: string)
    ensures Issues(Category("!!", description, Slugify("!"), None)) ==
      (if |description| < 10 then [DescriptionTooShort] else []) + [SlugTooShort, SlugNotSlugChars]
  {
    PunctuationGivesEmptySlug();
  }

  /** Editing the name sets the name and recomputes the slug from it; nothing else changes. */
  function OnNameChange(c: Category, name: string): (r: Category)
    ensures r.name == name && r.slug == Slugify(name)
    ensures r.description == c.description && r.icon == c.icon
  {
    c.(name := name, slug := Slugify(name))
  }

  /** After a name edit the slug always passes the character check; only its length can fail. */
  lemma NameChangeSlugHasSlugChars(c: Category, name: string)
    ensures SlugNotSlugChars in Issues(OnNameChange(c, name)) <==> Slugify(name) == ""
    ensures SlugTooShort !in Issues(OnNameChange(c, name)) ==> SlugNotSlugChars !in Issues(OnNameChange(c, name))
  {
    SlugifyUsesSlugChars(name);
  }
}
