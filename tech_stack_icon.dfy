/** `TechStackIcon`: the icon shown next to a technology name, found by a case-blind
    substring search over the keys of an ordered icon table. */
module TechStackIcon {
  import opened Wrappers
  import opened Seqs
  import opened Text

  datatype Icon = Code2 | Globe | Layout | PenTool | Zap | Server | Terminal | Database
                | GitBranch | Cpu | Layers | Box | Cloud | Lock | Shield

  /** The icon map in the order its keys are enumerated. */
  const IconMap: seq<(string, Icon)> := [
    ("React", Code2), ("Next.js", Globe), ("TypeScript", Code2), ("JavaScript", Code2),
    ("Vue", Layout), ("Tailwind", PenTool), ("HTML", Layout), ("CSS", Layout),
    ("Framer Motion", Zap), ("GSAP", Zap),
    ("Node.js", Server), ("Python", Terminal), ("PostgreSQL", Database), ("Redis", Database),
    ("MongoDB", Database), ("GraphQL", GitBranch), ("FastAPI", Zap),
    ("OpenAI", Cpu), ("TensorFlow", Cpu), ("PyTorch", Cpu), ("MLflow", Layers),
    ("Docker", Box), ("AWS", Cloud), ("Firebase", Cloud), ("Git", GitBranch),
    ("Figma", PenTool), ("Solidity", Lock), ("Smart Contracts", Shield)
  ]

  const DefaultIcon: Icon := Code2

  /** A key matches a tech when, both lower-cased, they are equal or the key occurs in it. */
  predicate KeyMatches(key: string, tech: string)
  {
    Lower(key) == Lower(tech) || Contains(Lower(tech), Lower(key))
  }

  /** Entry `i` is the first whose key matches. */
  predicate FirstMatch(table: seq<(string, Icon)>, tech: string, i: int)
  {
    0 <= i < |table| && KeyMatches(table[i].0, tech)
    && forall j :: 0 <= j < i ==> !KeyMatches(table[j].0, tech)
  }

  /** `Object.keys(iconMap).find(...)`: the position of the first matching key. */
  function LookupKey(table: seq<(string, Icon)>, tech: string): (r: Option<nat>)
    ensures r.Some? ==> FirstMatch(table, tech, r.value)
    ensures r.None? <==> forall j :: 0 <= j < |table| ==> !KeyMatches(table[j].0, tech)
  {
    FindIndex(table, (e: (string, Icon)) => KeyMatches(e.0, tech))
  }

  /** The entry whose icon is used, or `None` on the default path: no key matched, or
      the key found is the empty string, which is falsy. */
  function Resolve(table: seq<(string, Icon)>, tech: string): (r: Option<nat>)
    ensures r.Some? ==> FirstMatch(table, tech, r.value) && table[r.value].0 != ""
    ensures r.None? <==> (forall j :: 0 <= j < |table| ==> !KeyMatches(table[j].0, tech))
                         || exists i :: FirstMatch(table, tech, i) && table[i].0 == ""
  {
    match LookupKey(table, tech)
    case None => None
    case Some(i) =>
      FirstMatchUnique(table, tech, i);
      if table[i].0 != "" then Some(i) else None
  }

  /** `key ? iconMap[key] : DefaultIcon`. */
  function TechIcon(table: seq<(string, Icon)>, tech: string): (r: Icon)
    ensures forall i :: FirstMatch(table, tech, i) && table[i].0 != "" ==> r == table[i].1
    ensures (forall j :: 0 <= j < |table| ==> !KeyMatches(table[j].0, tech)) ==> r == DefaultIcon
  {
    match Resolve(table, tech)
    case None => DefaultIcon
    case Some(i) =>
      FirstMatchUnique(table, tech, i);
      table[i].1
  }

  /** There is at most one first match. */
  lemma FirstMatchUnique(table: seq<(string, Icon)>, tech: string, i: int)
    requires FirstMatch(table, tech, i)
    ensures forall k :: FirstMatch(table, tech, k) ==> k == i
  {
  }

  /** With no empty key in the table, the default icon is used exactly when no key matches. */
  lemma DefaultIffNoMatch(table: seq<(string, Icon)>, tech: string)
    requires forall j :: 0 <= j < |table| ==> table[j].0 != ""
    ensures Resolve(table, tech).None? <==> forall j :: 0 <= j < |table| ==> !KeyMatches(table[j].0, tech)
  {
  }

  /** The lookup does not see the letter case of the tech name. */
  lemma {:induction false} CaseBlind(table: seq<(string, Icon)>, a: string, b: string)
    requires Lower(a) == Lower(b)
    ensures LookupKey(table, a) == LookupKey(table, b)
    ensures Resolve(table, a) == Resolve(table, b)
    ensures TechIcon(table, a) == TechIcon(table, b)
  {
    assert forall key :: KeyMatches(key, a) == KeyMatches(key, b);
    var ra, rb := LookupKey(table, a), LookupKey(table, b);
    if ra.Some? {
      assert FirstMatch(table, b, ra.value);
      FirstMatchUnique(table, b, ra.value);
    }
  }

  /** In particular, a name and its lower-cased form get the same icon. */
  lemma LowerCaseSameIcon(table: seq<(string, Icon)>, tech: string)
    ensures TechIcon(table, tech) == TechIcon(table, Lower(tech))
  {
    LowerIdempotent(tech);
    CaseBlind(table, tech, Lower(tech));
  }

  /** A tech equal to some key up to letter case never takes the default path. */
  lemma ExactKeyNotDefault(table: seq<(string, Icon)>, tech: string, i: nat)
    requires forall j :: 0 <= j < |table| ==> table[j].0 != ""
    requires i < |table| && Lower(table[i].0) == Lower(tech)
    ensures Resolve(table, tech).Some?
  {
    DefaultIffNoMatch(table, tech);
    assert KeyMatches(table[i].0, tech);
  }

  /** Every key of the icon map is non-empty, so the two lemmas above apply to it. */
  lemma IconMapKeysNonEmpty()
    ensures forall j :: 0 <= j < |IconMap| ==> IconMap[j].0 != ""
  {
  }
}
