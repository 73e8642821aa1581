/** The project detail page (`ProjectPage`): which project a route shows, the header's
    badge, role and timeline fallbacks, `formatCategory`, and the four-way bucketing of
    the tech stack (`deriveTechCategories`). */
module ProjectPage {
  import opened Wrappers
  import opened Seqs
  import opened Text
  import opened Projects

  const DefaultRole: string := "Full-Stack Engineer"

  // ---------------------------------------------------------------- formatCategory

  /** `word.charAt(0).toUpperCase() + word.slice(1)`. */
  function Capitalize(w: string): (r: string)
    ensures |r| == |w|
    ensures w != [] ==> r[0] == UpperChar(w[0]) && r[1..] == w[1..]
  {
    if w == [] then "" else [UpperChar(w[0])] + w[1..]
  }

  function CapitalizeAll(ws: seq<string>): (r: seq<string>)
    ensures |r| == |ws|
    ensures forall i :: 0 <= i < |ws| ==> r[i] == Capitalize(ws[i])
  {
    seq(|ws|, i requires 0 <= i < |ws| => Capitalize(ws[i]))
  }

  /** Upper-casing never produces a space or a hyphen that was not there. */
  lemma CapitalizeAvoids(w: string, c: char)
    requires c == ' ' || c == '-'
    requires c !in w
    ensures c !in Capitalize(w)
  {
    if w != [] {
      assert Capitalize(w) == [UpperChar(w[0])] + w[1..];
      assert w == [w[0]] + w[1..];
    }
  }

  /** `formatCategory`: hyphen-separated pieces, each capitalised, joined by spaces. */
  function FormatCategory(category: string): (r: string)
    ensures '-' !in r
    ensures ' ' !in category ==> Split(r, ' ') == CapitalizeAll(Split(category, '-'))
  {
    FormatCategoryWords(category);
    Join(CapitalizeAll(Split(category, '-')), " ")
  }

  lemma FormatCategoryWords(category: string)
    ensures '-' !in Join(CapitalizeAll(Split(category, '-')), " ")
    ensures ' ' !in category ==>
              Split(Join(CapitalizeAll(Split(category, '-')), " "), ' ') == CapitalizeAll(Split(category, '-'))
  {
    var pieces := CapitalizeAll(Split(category, '-'));
    forall i | 0 <= i < |pieces| ensures '-' !in pieces[i] {
      CapitalizeAvoids(Split(category, '-')[i], '-');
    }
    JoinAvoids(pieces, " ", '-');
    if ' ' !in category {
      forall i | 0 <= i < |pieces| ensures ' ' !in pieces[i] {
        SplitPiecesAvoid(category, '-', ' ', i);
        CapitalizeAvoids(Split(category, '-')[i], ' ');
      }
      SplitJoin(pieces, ' ');
    }
  }

  /** A character absent from a string is absent from each of its pieces. */
  lemma {:induction false} SplitPiecesAvoid(s: string, sep: char, c: char, i: nat)
    requires c !in s && i < |Split(s, sep)|
    ensures c !in Split(s, sep)[i]
  {
    if s != [] {
      assert s == [s[0]] + s[1..];
      var rest := Split(s[1..], sep);
      if s[0] == sep {
        if i > 0 {
          SplitPiecesAvoid(s[1..], sep, c, i - 1);
        }
      } else if i == 0 {
        SplitPiecesAvoid(s[1..], sep, c, 0);
      } else {
        SplitPiecesAvoid(s[1..], sep, c, i);
      }
    }
  }

  /** Splitting a string that starts with a separator-free piece and a separator. */
  lemma {:induction false} SplitAfterPiece(a: string, rest: string, sep: char)
    requires sep !in a
    ensures Split(a + [sep] + rest, sep) == [a] + Split(rest, sep)
  {
    if a == [] {
      assert a + [sep] + rest == [sep] + rest;
      assert ([sep] + rest)[1..] == rest;
    } else {
      var s := a + [sep] + rest;
      assert s[0] == a[0] && s[1..] == a[1..] + [sep] + rest;
      SplitAfterPiece(a[1..], rest, sep);
      assert [a[0]] + a[1..] == a;
    }
  }

  /** Splitting a join of separator-free pieces gives the pieces back. */
  lemma {:induction false} SplitJoin(parts: seq<string>, sep: char)
    requires |parts| >= 1
    requires forall i :: 0 <= i < |parts| ==> sep !in parts[i]
    ensures Split(Join(parts, [sep]), sep) == parts
  {
    if |parts| == 1 {
      SplitFree(parts[0], sep);
    } else {
      SplitJoin(parts[1..], sep);
      SplitAfterPiece(parts[0], Join(parts[1..], [sep]), sep);
      assert parts == [parts[0]] + parts[1..];
    }
  }

  lemma {:induction false} SplitFree(s: string, sep: char)
    requires sep !in s
    ensures Split(s, sep) == [s]
  {
    if s != [] {
      SplitFree(s[1..], sep);
      assert [s[0]] + s[1..] == s;
    }
  }

  /** A category without hyphens is one capitalised word. */
  lemma FormatSingleWord(w: string)
    requires '-' !in w
    ensures FormatCategory(w) == Capitalize(w)
  {
    SplitFree(w, '-');
    assert CapitalizeAll([w]) == [Capitalize(w)];
  }

  /** A hyphenated pair `a-b` is shown as the two capitalised words with a space between. */
  lemma FormatWordPair(a: string, b: string)
    requires '-' !in a && '-' !in b
    ensures FormatCategory(a + "-" + b) == Capitalize(a) + " " + Capitalize(b)
  {
    SplitAfterPiece(a, b, '-');
    SplitFree(b, '-');
    assert Split(a + "-" + b, '-') == [a, b];
    assert CapitalizeAll([a, b]) == [Capitalize(a), Capitalize(b)];
    assert Join([Capitalize(a), Capitalize(b)], " ") == Capitalize(a) + " " + Capitalize(b);
  }

  // ---------------------------------------------------------------- deriveTechCategories

  datatype Bucket = Frontend | Backend | Database | Tooling

  const FrontendKeywords: seq<string> := ["react", "vue", "next", "tailwind", "css", "html", "framer", "gsap"]
  const BackendKeywords: seq<string> := ["node", "python", "fastapi", "express", "graphql"]
  const DatabaseKeywords: seq<string> := ["postgres", "redis", "mongo", "database", "sql"]

  /** Some keyword is a substring of the lower-cased name. */
  predicate Mentions(tech: string, keywords: seq<string>)
  {
    exists i :: 0 <= i < |keywords| && Contains(Lower(tech), keywords[i])
  }

  /** The one bucket a tech goes to: the first keyword list, in priority order, that it
      mentions; tools when it mentions none. */
  function BucketOf(tech: string): (r: Bucket)
    ensures r == Frontend <==> Mentions(tech, FrontendKeywords)
    ensures r == Backend <==> !Mentions(tech, FrontendKeywords) && Mentions(tech, BackendKeywords)
    ensures r == Database <==> !Mentions(tech, FrontendKeywords) && !Mentions(tech, BackendKeywords)
                               && Mentions(tech, DatabaseKeywords)
    ensures r == Tooling <==> !Mentions(tech, FrontendKeywords) && !Mentions(tech, BackendKeywords)
                              && !Mentions(tech, DatabaseKeywords)
  {
    if Mentions(tech, FrontendKeywords) then Frontend
    else if Mentions(tech, BackendKeywords) then Backend
    else if Mentions(tech, DatabaseKeywords) then Database
    else Tooling
  }

  /** The techs of one bucket, in input order. */
  function InBucket(techs: seq<string>, b: Bucket): (r: seq<string>)
    ensures |r| <= |techs|
    ensures forall i :: 0 <= i < |r| ==> BucketOf(r[i]) == b
  {
    Filter(techs, (t: string) => BucketOf(t) == b)
  }

  /** A bucket keeps its techs in input order, each as often as in the input. */
  lemma InBucketSelects(techs: seq<string>, b: Bucket)
    ensures Selects(InBucket(techs, b), techs, (t: string) => BucketOf(t) == b)
  {
    FilterSelects(techs, (t: string) => BucketOf(t) == b);
  }

  datatype TechCategories = TechCategories(frontend: seq<string>, backend: seq<string>,
                                           database: seq<string>, tools: seq<string>)

  /** Together the four buckets hold every input tech exactly as often as the input. */
  lemma BucketsPartition(techs: seq<string>)
    ensures multiset(InBucket(techs, Frontend)) + multiset(InBucket(techs, Backend))
            + multiset(InBucket(techs, Database)) + multiset(InBucket(techs, Tooling))
            == multiset(techs)
  {
    var m := multiset(InBucket(techs, Frontend)) + multiset(InBucket(techs, Backend))
             + multiset(InBucket(techs, Database)) + multiset(InBucket(techs, Tooling));
    FilterCounts(techs, (t: string) => BucketOf(t) == Frontend);
    FilterCounts(techs, (t: string) => BucketOf(t) == Backend);
    FilterCounts(techs, (t: string) => BucketOf(t) == Database);
    FilterCounts(techs, (t: string) => BucketOf(t) == Tooling);
    forall x ensures m[x] == multiset(techs)[x] {
    }
  }

  /** One more tech appended to the input goes to exactly its own bucket. */
  lemma InBucketSnoc(techs: seq<string>, t: string, b: Bucket)
    ensures InBucket(techs + [t], b) == InBucket(techs, b) + (if BucketOf(t) == b then [t] else [])
  {
    var p := (u: string) => BucketOf(u) == b;
    FilterAppend(techs, [t], p);
    FilterCons(t, [], p);
    assert [t] + [] == [t];
  }

  /** The buckets of the first `i + 1` techs: those of the first `i`, with tech `i`
      appended to its own bucket only. */
  lemma BucketsStep(techs: seq<string>, i: nat)
    requires i < |techs|
    ensures forall b :: InBucket(techs[..i + 1], b)
                        == InBucket(techs[..i], b) + (if BucketOf(techs[i]) == b then [techs[i]] else [])
  {
    assert techs[..i + 1] == techs[..i] + [techs[i]];
    forall b ensures InBucket(techs[..i + 1], b)
                     == InBucket(techs[..i], b) + (if BucketOf(techs[i]) == b then [techs[i]] else [])
    {
      InBucketSnoc(techs[..i], techs[i], b);
    }
  }

  /** `deriveTechCategories`: one pass over the stack, pushing each tech onto the first
      bucket whose keywords it mentions. */
  method DeriveTechCategories(techStack: seq<string>) returns (c: TechCategories)
    ensures c.frontend == InBucket(techStack, Frontend)
    ensures c.backend == InBucket(techStack, Backend)
    ensures c.database == InBucket(techStack, Database)
    ensures c.tools == InBucket(techStack, Tooling)
  {
    var frontend, backend, database, tools := [], [], [], [];
    var i := 0;
    while i < |techStack|
      invariant 0 <= i <= |techStack|
      invariant frontend == InBucket(techStack[..i], Frontend)
      invariant backend == InBucket(techStack[..i], Backend)
      invariant database == InBucket(techStack[..i], Database)
      invariant tools == InBucket(techStack[..i], Tooling)
    {
      var tech := techStack[i];
      BucketsStep(techStack, i);
      if Mentions(tech, FrontendKeywords) {
        frontend := frontend + [tech];
      } else if Mentions(tech, BackendKeywords) {
        backend := backend + [tech];
      } else if Mentions(tech, DatabaseKeywords) {
        database := database + [tech];
      } else {
        tools := tools + [tech];
      }
      i := i + 1;
    }
    assert techStack[..i] == techStack;
    c := TechCategories(frontend, backend, database, tools);
  }

  // ---------------------------------------------------------------- the page

  /** `project.category.replace('-', ' / ')`: only the first hyphen is replaced, and no
      category has a second one. */
  function CategoryBadge(c: Category): (r: string)
    ensures '-' !in r
    ensures '-' !in CategoryId(c) ==> r == CategoryId(c)
    ensures forall a: string, b: string :: '-' !in a && CategoryId(c) == a + "-" + b ==> r == a + " / " + b
  {
    BadgeHyphens(c);
    var r := ReplaceFirst(CategoryId(c), '-', " / ");
    forall a: string, b: string | '-' !in a && CategoryId(c) == a + "-" + b
      ensures r == a + " / " + b
    {
      ReplaceFirstAfter(a, b, '-', " / ");
    }
    r
  }

  /** Replacing the first `c` of `a + [c] + b` where `a` has none. */
  lemma ReplaceFirstAfter(a: string, b: string, c: char, with: string)
    requires c !in a
    ensures ReplaceFirst(a + [c] + b, c, with) == a + with + b
  {
    var s := a + [c] + b;
    assert s[..|a|] == a && s[|a| + 1..] == b;
    IndexOfAt(s, c, |a|);
  }

  /** Category ids have at most one hyphen, so the badge has none. */
  lemma BadgeHyphens(c: Category)
    ensures '-' !in ReplaceFirst(CategoryId(c), '-', " / ")
  {
    match c
    case FullStack => HyphenatedBadge("full-stack", "full", "stack");
    case AiMl => HyphenatedBadge("ai-ml", "ai", "ml");
    case Blockchain => PlainBadge("blockchain");
    case Tools => PlainBadge("tools");
    case Experimental => PlainBadge("experimental");
  }

  lemma HyphenatedBadge(id: string, a: string, b: string)
    requires '-' !in a && '-' !in b && id == a + ['-'] + b
    ensures '-' !in ReplaceFirst(id, '-', " / ")
  {
    ReplaceFirstAfter(a, b, '-', " / ");
  }

  lemma PlainBadge(id: string)
    requires '-' !in id
    ensures ReplaceFirst(id, '-', " / ") == id
  {
  }

  /** `project.role || 'Full-Stack Engineer'`: an empty role also falls back. */
  function RoleLabel(p: Project): (r: string)
    ensures p.role.Some? && p.role.value != "" ==> r == p.role.value
    ensures p.role.None? || p.role.value == "" ==> r == DefaultRole
  {
    if p.role.Some? && p.role.value != "" then p.role.value else DefaultRole
  }

  /** `project.duration || project.year`. */
  function TimelineLabel(p: Project): (r: string)
    ensures p.duration.Some? && p.duration.value != "" ==> r == p.duration.value
    ensures p.duration.None? || p.duration.value == "" ==> r == p.year
  {
    if p.duration.Some? && p.duration.value != "" then p.duration.value else p.year
  }

  datatype Header = Header(documentTitle: string, badge: string, year: string, title: string,
                           tagline: string, role: string, timeline: string)

  datatype PageView = NotFound | Found(project: Project, header: Header)

  /** The page for route parameter `id`: the first project with that id, with its header;
      not found when the parameter is missing or empty or names no project. */
  function ProjectPageView(ps: seq<Project>, id: Option<string>): (r: PageView)
    ensures id.None? || id.value == "" ==> r == NotFound
    ensures id.Some? && id.value != "" ==>
              (r.NotFound? <==> forall i :: 0 <= i < |ps| ==> ps[i].id != id.value)
    ensures r.Found? ==> exists i :: 0 <= i < |ps| && r.project == ps[i] && ps[i].id == id.value
                                    && forall j :: 0 <= j < i ==> ps[j].id != id.value
    ensures r.Found? ==> r.header.badge == CategoryBadge(r.project.category)
                         && r.header.year == r.project.year && r.header.title == r.project.title
                         && r.header.tagline == r.project.tagline
                         && r.header.role == RoleLabel(r.project)
                         && r.header.timeline == TimelineLabel(r.project)
                         && r.header.documentTitle == r.project.title + " | Portfolio"
  {
    if id.None? || id.value == "" then NotFound
    else match GetProjectById(ps, id.value)
      case None => NotFound
      case Some(p) =>
        Found(p, Header(p.title + " | Portfolio", CategoryBadge(p.category), p.year, p.title,
                        p.tagline, RoleLabel(p), TimelineLabel(p)))
  }
}
