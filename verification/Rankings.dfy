/** The order of startup files and frontend directories. */
module Rankings {
  import opened Text
  import opened Workflow

  lemma StartupOrder()
    ensures TotalPreorder(StartupLeq)
  {
    hide StartupPriority, CountChar, Lower, LexLeq;
    forall a, b
      ensures StartupLeq(a, b) || StartupLeq(b, a)
    {
      LexTotal(Lower(a), Lower(b));
    }
    forall a, b, c | StartupLeq(a, b) && StartupLeq(b, c)
      ensures StartupLeq(a, c)
    {
      if LexLeq(Lower(a), Lower(b)) && LexLeq(Lower(b), Lower(c)) {
        LexTransitive(Lower(a), Lower(b), Lower(c));
      }
    }
  }

  lemma FrontendOrder()
    ensures TotalPreorder(FrontendLeq)
  {
    hide Lower, LexLeq;
    forall a, b
      ensures FrontendLeq(a, b) || FrontendLeq(b, a)
    {
      LexTotal(Lower(a.1), Lower(b.1));
    }
    forall a, b, c | FrontendLeq(a, b) && FrontendLeq(b, c)
      ensures FrontendLeq(a, c)
    {
      if LexLeq(Lower(a.1), Lower(b.1)) && LexLeq(Lower(b.1), Lower(c.1)) {
        LexTransitive(Lower(a.1), Lower(b.1), Lower(c.1));
      }
    }
  }

  lemma {:induction false} StartupFilesElements(files: seq<string>, path: string)
    ensures path in StartupFiles(files) <==> path in files && IsStartupName(path)
  {
    hide IsStartupName;
    if files != [] {
      StartupFilesElements(files[..|files| - 1], path);
      assert files == files[..|files| - 1] + [files[|files| - 1]];
    }
  }

  lemma FirstAreKept(xs: seq<string>, i: nat)
    requires i < |xs|
    ensures i < |FirstSix(xs)| ==> xs[i] in FirstSix(xs)
  {
    if i < |FirstSix(xs)| {
      assert FirstSix(xs)[i] == xs[i];
    }
  }

  /** READMEs first, then manifests, then the rest; shallow before deep, and by folded name. */
  lemma StartupCandidatesAreTheFirst(p: Project)
    ensures var candidates := StartupCandidates(p);
            && SortedBy(candidates, StartupLeq) && |candidates| <= 6
            && (forall c :: c in candidates ==> c in p.listedFiles && IsStartupName(c))
            && (forall f :: f in p.listedFiles && IsStartupName(f) && f !in candidates ==>
                  |candidates| == 6 && forall c :: c in candidates ==> StartupLeq(c, f))
  {
    hide IsStartupName, StartupLeq, SortBy, StartupFiles;
    var files := StartupFiles(p.listedFiles);
    var sorted := SortBy(files, StartupLeq);
    StartupOrder();
    SortBySorts(files, StartupLeq);
    SortByElements(files, StartupLeq);
    forall f
      ensures f in sorted <==> f in p.listedFiles && IsStartupName(f)
    {
      StartupFilesElements(p.listedFiles, f);
      assert f in sorted <==> f in multiset(sorted);
      assert f in files <==> f in multiset(files);
    }
    var candidates := StartupCandidates(p);
    forall f | f in sorted && f !in candidates
      ensures |candidates| == 6 && forall c :: c in candidates ==> StartupLeq(c, f)
    {
      var i :| 0 <= i < |sorted| && sorted[i] == f;
      FirstAreKept(sorted, i);
    }
  }

  /** Behind the frontend directories stand their counts of frontend packages, in falling order. */
  lemma FrontendsAreRanked(p: Project) returns (ranked: seq<(nat, string)>)
    ensures Seconds(ranked) == BrowserDirectories(p) && SortedBy(ranked, FrontendLeq)
    ensures forall i, j :: 0 <= i < j < |ranked| ==> ranked[i].0 >= ranked[j].0
    ensures forall r :: r in ranked <==> r in RankedFrontends(p.packageManifests)
  {
    hide RankedFrontends, Dedup, SortBy, LexLeq, Lower;
    var found := RankedFrontends(p.packageManifests);
    ranked := SortBy(Dedup(found), FrontendLeq);
    FrontendOrder();
    DedupElements(found);
    SortBySorts(Dedup(found), FrontendLeq);
    SortByElements(Dedup(found), FrontendLeq);
    forall r
      ensures r in ranked <==> r in found
    {
      assert r in ranked <==> r in multiset(ranked);
      assert r in Dedup(found) <==> r in multiset(Dedup(found));
    }
  }
}
