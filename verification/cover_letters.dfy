/** The cover-letter list of the dashboard: creating a letter from the
    draft (newest first), deleting by id, and the truncated preview.  The
    clock and the random score draw are parameters. */
module CoverLetters {
  import opened Seqs
  import opened Text

  datatype CoverLetter = CoverLetter(id: string, title: string, content: string, createdAt: string, score: int)

  /** The title and content typed into the "new letter" dialog. */
  datatype Draft = Draft(title: string, content: string)

  datatype LettersPage = LettersPage(letters: seq<CoverLetter>, draft: Draft, isCreating: bool)

  const EmptyDraft: Draft := Draft("", "")

  /** The letters the page starts with. */
  const InitialLetters: seq<CoverLetter> := [
    CoverLetter("1", "Software Engineer - TechCorp",
                "Dear Hiring Manager,\n\nI am writing to express my interest...", "2025-02-15", 85),
    CoverLetter("2", "Frontend Developer - StartupX",
                "Dear Hiring Team,\n\nI am excited to apply...", "2025-02-10", 92)]

  const InitialPage: LettersPage := LettersPage(InitialLetters, EmptyDraft, false)

  /** The mock score `Math.floor(random * 20) + 80` for a draw `random`
      in [0, 1). */
  function MockLetterScore(random: real): (score: int)
    requires 0.0 <= random < 1.0
    ensures 80 <= score <= 99
  {
    (random * 20.0).Floor + 80
  }

  /** `handleCreate`, with `id` and `createdAt` standing for the clock's
      `Date.now()` and today's date: the new letter goes first, the old
      ones follow in order, and the dialog's draft is cleared. */
  function Create(page: LettersPage, id: string, createdAt: string, random: real): (r: LettersPage)
    requires 0.0 <= random < 1.0
    ensures |r.letters| == |page.letters| + 1
    ensures r.letters[1..] == page.letters
    ensures r.letters[0].id == id && r.letters[0].createdAt == createdAt
    ensures r.letters[0].title == page.draft.title && r.letters[0].content == page.draft.content
    ensures 80 <= r.letters[0].score <= 99
    ensures r.draft == EmptyDraft && !r.isCreating
  {
    var letter := CoverLetter(id, page.draft.title, page.draft.content, createdAt, MockLetterScore(random));
    LettersPage([letter] + page.letters, EmptyDraft, false)
  }

  function HasOtherId(id: string): CoverLetter -> bool {
    (letter: CoverLetter) => letter.id != id
  }

  /** `handleDelete`: every letter with the id goes, the rest keep their
      order. */
  function Delete(page: LettersPage, id: string): (r: LettersPage)
    ensures r.draft == page.draft && r.isCreating == page.isCreating
    ensures forall letter :: letter in r.letters ==> letter.id != id
    ensures forall letter :: letter in page.letters && letter.id != id ==> letter in r.letters
    ensures IsSubseq(r.letters, page.letters)
    ensures forall letter :: multiset(r.letters)[letter] == if letter.id != id then multiset(page.letters)[letter] else 0
  {
    FilterIsSubseq(page.letters, HasOtherId(id));
    forall letter
      ensures multiset(Filter(page.letters, HasOtherId(id)))[letter]
              == if letter.id != id then multiset(page.letters)[letter] else 0
    {
      FilterCounts(page.letters, HasOtherId(id), letter);
    }
    page.(letters := Filter(page.letters, HasOtherId(id)))
  }

  /** Deleting an id no letter carries changes nothing. */
  lemma DeleteAbsentId(page: LettersPage, id: string)
    requires forall letter :: letter in page.letters ==> letter.id != id
    ensures Delete(page, id) == page
  {
    FilterKeepsAll(page.letters, HasOtherId(id));
  }

  /** Deleting a freshly created letter, whose id was new, restores the
      list. */
  lemma DeleteUndoesCreate(page: LettersPage, id: string, createdAt: string, random: real)
    requires 0.0 <= random < 1.0
    requires forall letter :: letter in page.letters ==> letter.id != id
    ensures Delete(Create(page, id, createdAt, random), id).letters == page.letters
  {
    var created := Create(page, id, createdAt, random);
    assert created.letters == [created.letters[0]] + page.letters;
    DeleteAbsentId(page, id);
  }

  /** The preview length limit. */
  const PreviewLength: nat := 200

  /** The card preview: content over 200 characters is cut to its first
      200 followed by "...". */
  function Preview(content: string): (r: string)
    ensures |content| <= PreviewLength ==> r == content
    ensures |content| > PreviewLength ==>
      |r| == PreviewLength + 3 && r[..PreviewLength] == content[..PreviewLength] && EndsWith(r, "...")
  {
    if |content| > PreviewLength then content[..PreviewLength] + "..." else content
  }

  /** The preview of a preview is the same preview. */
  lemma PreviewIdempotent(content: string)
    ensures Preview(Preview(content)) == Preview(content)
  {
    if |content| > PreviewLength {
      var p := Preview(content);
      assert p[..PreviewLength] == content[..PreviewLength];
    }
  }

  /** A preview always starts with the content's first characters. */
  lemma PreviewKeepsOpening(content: string)
    ensures var n := if |content| < PreviewLength then |content| else PreviewLength;
            IsPrefix(content[..n], Preview(content))
  {
  }
}
