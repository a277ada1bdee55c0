/** What judges may say of a finding once its receipt was trimmed (src/rail/reviewer/verdict.py,
    service.py). */
module LongPaths {
  import opened Wrappers
  import opened Findings
  import opened Admission
  import opened Receipt

  /** Where the next pass finds the finding filed. */
  function RecordedPlace(f: Finding, level: nat): Place {
    Reloaded(Trimmed(f, level)).file
  }

  /** The place survives exactly when its text is within the limit. */
  lemma PlaceIsKeptWhen(f: Finding, level: nat)
    ensures RecordedPlace(f, level) == f.file <==> |PlaceText(f.file)| <= FILE_MAX
  {
    hide ShortTitle;
  }

  /** A reply with this sight may answer a finding filed there. */
  ghost predicate CanAnswer(place: Place, line: Option<nat>, i: Id, files: set<string>, sight: Option<Sight>,
                            readable: bool, excerpted: set<Id>)
  {
    MayAnswer(sight, i, map[i := (place, line)], files, readable, excerpted)
  }

  /** No judged path begins with the ellipsis of a trimmed one. */
  predicate AreWhole(files: set<string>) {
    forall p :: p in files ==> p == "" || p[0] != '\U{2026}'
  }

  lemma TrimmedMatchesNothing(f: Finding, level: nat, files: set<string>)
    requires |PlaceText(f.file)| > FILE_MAX && AreWhole(files)
    ensures RecordedPlace(f, level).Path? && Resolve(RecordedPlace(f, level), files) == Missing
  {
    hide ShortTitle;
    var file := PlaceText(f.file);
    var cut := "\U{2026}" + file[|file| - (FILE_MAX - 1)..];
    assert cut[0] == '\U{2026}';
    assert RecordedPlace(f, level) == Path(cut);
    NoPrefix(cut);
  }

  lemma NoPrefix(s: string)
    requires s != "" && s[0] == '\U{2026}'
    ensures Candidates(s) == {s}
  {
    assert "./"[0] == '.' && "a/"[0] == 'a' && "b/"[0] == 'b';
  }

  lemma ResolvedMeans(place: Place, files: set<string>)
    ensures Resolve(place, files) == Missing <==> Matches(place, files) == {}
  {
  }

  /**
   * Trimming leaves alone what judges may say of a finding exactly when its place is within the
   * limit, or stands for no judged path anyway.
   */
  lemma AnswersSurviveWhen(f: Finding, level: nat, i: Id, files: set<string>)
    requires AreWhole(files)
    ensures (forall sight, readable, excerpted ::
               CanAnswer(RecordedPlace(f, level), f.line, i, files, sight, readable, excerpted) <==>
               CanAnswer(f.file, f.line, i, files, sight, readable, excerpted))
        <==> |PlaceText(f.file)| <= FILE_MAX || Matches(f.file, files) == {}
  {
    hide Resolve, Matches, RecordedPlace, AreWhole;
    PlaceIsKeptWhen(f, level);
    ResolvedMeans(f.file, files);
    if |PlaceText(f.file)| > FILE_MAX {
      TrimmedMatchesNothing(f, level, files);
      if Matches(f.file, files) != {} {
        assert CanAnswer(RecordedPlace(f, level), f.line, i, files, None, true, {i});
        assert !CanAnswer(RecordedPlace(f, level), f.line, i, files, None, true, {});
        assert CanAnswer(f.file, f.line, i, files, None, true, {i}) <==>
          CanAnswer(f.file, f.line, i, files, None, true, {});
      }
    }
  }

  /** Once the path is cut, no reply keeps an answer to the finding, or a repeat of it, unless the
      finding's own window was quoted. */
  lemma CutPathIsUnanswered(f: Finding, level: nat, i: Id, reply: JudgeReply, j: Judgement, known: Locations)
    requires |PlaceText(f.file)| > FILE_MAX && AreWhole(j.judgedFiles) && i !in j.excerpted
    requires i in known && known[i] == (RecordedPlace(f, level), f.line)
    requires reply.verdict.Some?
    ensures var v := Admissible(reply, j, known).verdict;
      && v.Some? && (forall a :: a in v.value.previous ==> a.ref != F(i))
      && forall g :: g in v.value.findings ==> g.id != Some(i)
  {
    hide RecordedPlace, Resolve;
    TrimmedMatchesNothing(f, level, j.judgedFiles);
    assert !MayAnswer(reply.sight, i, known, j.judgedFiles, j.readable, j.excerpted);
  }

  /** A path of 201 characters: a judge that saw the whole file may answer before, and not after. */
  function LongPath(): string {
    seq(FILE_MAX + 1, n => 'x')
  }

  lemma LongPathLosesItsJudge(f: Finding, level: nat, i: Id)
    requires f.file == Path(LongPath())
    ensures var files, sight := {LongPath()}, Some(Sight({LongPath()}, map[]));
      && CanAnswer(f.file, f.line, i, files, sight, true, {})
      && !CanAnswer(RecordedPlace(f, level), f.line, i, files, sight, true, {})
  {
    hide RecordedPlace;
    var p := LongPath();
    assert p[0] == 'x' && p[1] == 'x';
    assert Candidates(p) == {p};
    assert Matches(f.file, {p}) == {p};
    TrimmedMatchesNothing(f, level, {p});
  }
}
