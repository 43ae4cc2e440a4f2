/**
 * One turn of the profile agent (agent.py). A message that looks like a
 * recruiter's goes to recruiter mode: the lead extracted from it is logged,
 * or a logging failure is reported, or the missing details are asked for.
 * Every other message is answered by the language model, given the profile
 * sections its keywords ask for and the user/assistant history.
 *
 * The language model is a parameter: `extracted` is what the extraction call
 * yields (None when the call or the JSON decoding fails), and `chat` maps a
 * message stack to the reply's content (None when the call fails).
 */
module Agent {
  import opened Wrappers
  import opened Text
  import opened Json
  import opened Tools

  const SystemPrompt: string :=
    "You are Mayank Kumar Pokhriyal, an AI Engineer & Data Scientist.\n"
    + "You speak warmly in the first person and represent my real professional profile.\n"
    + "You must stay truthful and consistent with the following structured data:\n"
    + "- Education, experience, skills, projects, job preferences, and links.\n"
    + "If you don't know something from the profile, say so honestly.\n"
    + "Do NOT output JSON, brackets, or tool instructions. Speak like a human.\n"

  const FollowUpReply: string :=
    "Thanks for reaching out about a potential opportunity!\n\n"
    + "To properly record this, could you please share:\n"
    + "- Your name\n"
    + "- Company\n"
    + "- Role you're hiring for\n"
    + "- Best contact email or phone\n"

  const LoggingFailureReply: string :=
    "Thanks for your interest and for sharing your details. "
    + "I attempted to record your information but ran into an internal logging issue. "
    + "You can also share your details via email at mayankpokhriyal96@gmail.com."

  const RephraseReply: string :=
    "I heard your question, but I'm not sure how to answer that. Could you rephrase?"

  const ModelErrorReply: string :=
    "I ran into an issue talking to my local AI engine (Ollama). Please make sure the Ollama server is running and the model is available."

  /** The lines of the reply that confirms a logged lead. */
  function ReplyLines(lead: Lead): seq<string> {
    [ "Thank you for reaching out about this opportunity.\n\n",
      "I've recorded your details as:\n",
      "- Name: " + Get(lead, "recruiter_name") + "\n",
      "- Company: " + Get(lead, "company") + "\n",
      "- Role: " + Get(lead, "role") + "\n",
      "- Contact: " + Get(lead, "contact") + "\n",
      "- Notes: " + Get(lead, "notes") + "\n\n",
      "I'll review this role and get back to you as soon as possible." ]
  }

  /** The reply lists the value of one recorded column. */
  lemma ReplyLinesShow(lead: Lead, k: string)
    requires k in Columns[1..]
    ensures Contains(Join(ReplyLines(lead), ""), Get(lead, k))
  {
    var lines := ReplyLines(lead);
    var i: int;
    if k == "recruiter_name" {
      ContainsMiddle("- Name: ", Get(lead, k), "\n");
      i := 2;
    } else if k == "company" {
      ContainsMiddle("- Company: ", Get(lead, k), "\n");
      i := 3;
    } else if k == "role" {
      ContainsMiddle("- Role: ", Get(lead, k), "\n");
      i := 4;
    } else if k == "contact" {
      ContainsMiddle("- Contact: ", Get(lead, k), "\n");
      i := 5;
    } else {
      assert k == "notes";
      ContainsMiddle("- Notes: ", Get(lead, k), "\n\n");
      i := 6;
    }
    JoinContainsParts(lines, "", i);
    ContainsTransitive(Join(lines, ""), lines[i], Get(lead, k));
  }

  lemma ReplyLinesShowAll(lead: Lead)
    ensures forall k :: k in Columns[1..] ==> Contains(Join(ReplyLines(lead), ""), Get(lead, k))
  {
    forall k | k in Columns[1..] {
      ReplyLinesShow(lead, k);
    }
  }

  /** The reply that confirms a logged lead; it repeats every recorded detail. */
  function RecordedReply(lead: Lead): (r: string)
    ensures forall k :: k in Columns[1..] ==> Contains(r, Get(lead, k))
  {
    ReplyLinesShowAll(lead);
    Join(ReplyLines(lead), "")
  }

  datatype Message = Message(role: string, content: string)

  /** What run_agent returns: the reply, whether a lead was logged, and the
      logged lead merged with the log's result. */
  datatype TurnResult = TurnResult(response: string, leadLogged: bool, leadPayload: Option<map<string, string>>)

  // -----------------------------
  // Recruiter detection
  // -----------------------------

  const HiringWords: seq<string> := ["hiring", "recruiter", "role", "position", "job", "opening"]
  const ContactWords: seq<string> := ["email", "@", "contact", "reach", "phone"]

  /** _looks_like_recruiter_message: the lower-cased text mentions hiring and
      a way to be contacted. */
  function LooksLikeRecruiterMessage(text: string): (r: bool)
    ensures r <==> (exists i :: 0 <= i < |HiringWords| && Contains(Lower(text), HiringWords[i]))
                   && (exists j :: 0 <= j < |ContactWords| && Contains(Lower(text), ContactWords[j]))
  {
    var lower := Lower(text);
    AnyIn(lower, HiringWords) && AnyIn(lower, ContactWords)
  }

  /** Only the lower-cased text matters. */
  lemma RecruiterCheckIgnoresCase(text: string)
    ensures LooksLikeRecruiterMessage(Lower(text)) == LooksLikeRecruiterMessage(text)
  {
    LowerIdempotent(text);
  }

  /** A hiring message that gives an e-mail address is routed to recruiter
      mode: "I'm hiring for a Senior ML role, please reach me at hr@acme.com". */
  lemma HiringMessageIsRecruiter()
    ensures LooksLikeRecruiterMessage(
              "I'm " + "hiring" + " for a Senior ML role, please reach me at hr" + "@" + "acme.com")
  {
    var a, b, c := "I'm ", " for a Senior ML role, please reach me at hr", "acme.com";
    var text := a + "hiring" + b + "@" + c;
    LowerAppend(a + "hiring" + b + "@", c);
    LowerAppend(a + "hiring" + b, "@");
    LowerAppend(a + "hiring", b);
    LowerAppend(a, "hiring");
    assert Lower("hiring") == "hiring";
    assert Lower("@") == "@";
    var lower := Lower(text);
    assert lower == Lower(a) + "hiring" + (Lower(b) + "@" + Lower(c));
    ContainsMiddle(Lower(a), "hiring", Lower(b) + "@" + Lower(c));
    assert Contains(lower, HiringWords[0]);
    assert lower == (Lower(a) + "hiring" + Lower(b)) + "@" + Lower(c);
    ContainsMiddle(Lower(a) + "hiring" + Lower(b), "@", Lower(c));
    assert Contains(lower, ContactWords[1]);
  }

  /** _has_minimum_lead_fields: a lead exists and carries a non-empty
      recruiter_name, company, role and contact. */
  function HasMinimumLeadFields(lead: Option<Lead>): (r: bool)
    ensures r <==> lead.Some? && forall k :: k in RequiredFields ==> Present(lead.value, k)
  {
    match lead
    case None => false
    case Some(l) =>
      l != map[]
      && Present(l, "recruiter_name") && Present(l, "company")
      && Present(l, "role") && Present(l, "contact")
  }

  /** The notes never decide whether a lead is complete. */
  lemma NotesDoNotMatter(lead: Lead, notes: string)
    ensures HasMinimumLeadFields(Some(lead["notes" := notes])) == HasMinimumLeadFields(Some(lead))
  {
    assert forall k :: k in RequiredFields ==> k != "notes";
  }

  /** A lead complete by the agent's check is exactly one the log accepts:
      log_recruiter_lead never reports missing fields for it. */
  lemma CompleteLeadHasNothingMissing(lead: Lead)
    ensures HasMinimumLeadFields(Some(lead)) <==> MissingFields(lead) == []
  {
    var missing := MissingFields(lead);
    if missing != [] {
      assert missing[0] in missing;
    }
  }

  // -----------------------------
  // Profile context
  // -----------------------------

  const EducationWords: seq<string> := ["education", "degree", "university", "college"]
  const ExperienceWords: seq<string> := ["experience", "work", "job", "roles", "kyndryl", "ibm"]
  const SkillsWords: seq<string> := ["skill", "stack", "tech", "tools"]

  /** The number of projects a Projects block shows. */
  const MaxProjectsShown: nat := 5

  /** One block of the profile context, with the entries it lists. */
  datatype ContextPart =
    | EducationPart(entries: seq<Json>)
    | ExperiencePart(entries: seq<Json>)
    | SkillsPart(skills: Json)
    | ProjectsPart(entries: seq<Json>)

  /** The four keyword groups, in the order their blocks are collected. */
  datatype Group = EducationGroup | ExperienceGroup | SkillsGroup | ProjectsGroup

  /** The lower-cased question hits the group's keywords. */
  predicate Hit(g: Group, lower: string) {
    match g
    case EducationGroup => AnyIn(lower, EducationWords)
    case ExperienceGroup => AnyIn(lower, ExperienceWords)
    case SkillsGroup => AnyIn(lower, SkillsWords)
    case ProjectsGroup => Contains(lower, "project")
  }

  /** The section each group asks for. */
  function SectionName(g: Group): string {
    match g
    case EducationGroup => "education"
    case ExperienceGroup => "experience"
    case SkillsGroup => "skills"
    case ProjectsGroup => "projects"
  }

  /** The group a block belongs to. */
  function GroupOf(part: ContextPart): Group {
    match part
    case EducationPart(_) => EducationGroup
    case ExperiencePart(_) => ExperienceGroup
    case SkillsPart(_) => SkillsGroup
    case ProjectsPart(_) => ProjectsGroup
  }

  /** The position of a group in the order blocks are collected. */
  function Rank(g: Group): nat {
    match g
    case EducationGroup => 0
    case ExperienceGroup => 1
    case SkillsGroup => 2
    case ProjectsGroup => 3
  }

  /** Each group's section name is a section of the alias table, so looking
      it up through the aliases is looking up the name itself. */
  lemma SectionNameIsResolved(g: Group)
    ensures SectionName(g) != "" && Resolve(SectionName(g)) == SectionName(g)
  {
    var name := SectionName(g);
    assert name in AliasTargets;
    AliasTargetIsNormal(name);
    LowerWordIsNormal(name);
  }

  /** The block built from a group's (non-empty) section: each group makes its
      own kind of block; education and experience list every entry, skills
      keeps the section, and projects lists the first MaxProjectsShown. */
  function MakePart(g: Group, section: Json): (part: ContextPart)
    ensures GroupOf(part) == g
    ensures g == EducationGroup || g == ExperienceGroup ==> part.entries == Items(section)
    ensures g == SkillsGroup ==> part.skills == section
    ensures g == ProjectsGroup ==>
              part.entries <= Items(section)
              && |part.entries| == (if |Items(section)| < MaxProjectsShown then |Items(section)| else MaxProjectsShown)
    ensures part.ProjectsPart? ==> |part.entries| <= MaxProjectsShown
  {
    match g
    case EducationGroup => EducationPart(Items(section))
    case ExperienceGroup => ExperiencePart(Items(section))
    case SkillsGroup => SkillsPart(section)
    case ProjectsGroup =>
      var projects := Items(section);
      ProjectsPart(if |projects| <= MaxProjectsShown then projects else projects[..MaxProjectsShown])
  }

  /** The group's block when the question hits it and its section is non-empty. */
  function Block(profile: Profile, lower: string, g: Group): (b: seq<ContextPart>)
    ensures |b| <= 1
    ensures |b| == 1 <==> Hit(g, lower) && Truthy(Lookup(profile, SectionName(g)))
    ensures |b| == 1 ==> b[0] == MakePart(g, Lookup(profile, SectionName(g)))
    ensures forall p :: p in b ==> GroupOf(p) == g
    ensures !Hit(g, lower) ==> b == []
    ensures forall p :: p in b && p.ProjectsPart? ==> |p.entries| <= MaxProjectsShown
  {
    BlockOf(Lookup(profile, SectionName(g)), lower, g)
  }

  /** The block a group adds for the section it looked up. */
  function BlockOf(section: Json, lower: string, g: Group): (b: seq<ContextPart>)
    ensures |b| <= 1
    ensures |b| == 1 <==> Hit(g, lower) && Truthy(section)
    ensures |b| == 1 ==> b[0] == MakePart(g, section)
    ensures forall p :: p in b ==> GroupOf(p) == g
    ensures !Hit(g, lower) ==> b == []
    ensures forall p :: p in b && p.ProjectsPart? ==> |p.entries| <= MaxProjectsShown
  {
    if Hit(g, lower) && Truthy(section) then [MakePart(g, section)] else []
  }

  /** Some keyword group of the lower-cased question asks for a section. */
  predicate NeedsProfile(lower: string) {
    Hit(EducationGroup, lower) || Hit(ExperienceGroup, lower)
    || Hit(SkillsGroup, lower) || Hit(ProjectsGroup, lower)
  }

  /** The blocks _build_profile_context collects from a loaded profile, in
      the order education, experience, skills, projects. */
  function ContextParts(profile: Profile, lower: string): (parts: seq<ContextPart>)
    ensures |parts| <= 4
    ensures !NeedsProfile(lower) ==> parts == []
    ensures forall p :: p in parts && p.ProjectsPart? ==> |p.entries| <= MaxProjectsShown
  {
    Block(profile, lower, EducationGroup) + Block(profile, lower, ExperienceGroup)
    + Block(profile, lower, SkillsGroup) + Block(profile, lower, ProjectsGroup)
  }

  /** The blocks come in the order of their groups. */
  predicate InGroupOrder(parts: seq<ContextPart>) {
    forall i, j :: 0 <= i < j < |parts| ==> Rank(GroupOf(parts[i])) < Rank(GroupOf(parts[j]))
  }

  lemma OrderedAppend(a: seq<ContextPart>, b: seq<ContextPart>, n: nat)
    requires InGroupOrder(a) && InGroupOrder(b)
    requires forall p :: p in a ==> Rank(GroupOf(p)) < n
    requires forall p :: p in b ==> Rank(GroupOf(p)) >= n
    ensures InGroupOrder(a + b)
  {
    forall i, j | 0 <= i < j < |a + b|
      ensures Rank(GroupOf((a + b)[i])) < Rank(GroupOf((a + b)[j]))
    {
      if j < |a| {
      } else if i < |a| {
        assert (a + b)[i] in a && (a + b)[j] in b;
      } else {
        assert (a + b)[i] == b[i - |a|] && (a + b)[j] == b[j - |a|];
      }
    }
  }

  /** The context lists its blocks in the order education, experience,
      skills, projects. */
  lemma ContextPartsInGroupOrder(profile: Profile, lower: string)
    ensures InGroupOrder(ContextParts(profile, lower))
  {
    FourBlocksInOrder(Block(profile, lower, EducationGroup), Block(profile, lower, ExperienceGroup),
                      Block(profile, lower, SkillsGroup), Block(profile, lower, ProjectsGroup));
  }

  /** Four blocks of at most one part each, one per group in group order. */
  lemma FourBlocksInOrder(b0: seq<ContextPart>, b1: seq<ContextPart>, b2: seq<ContextPart>, b3: seq<ContextPart>)
    requires |b0| <= 1 && |b1| <= 1 && |b2| <= 1 && |b3| <= 1
    requires forall p :: p in b0 ==> GroupOf(p) == EducationGroup
    requires forall p :: p in b1 ==> GroupOf(p) == ExperienceGroup
    requires forall p :: p in b2 ==> GroupOf(p) == SkillsGroup
    requires forall p :: p in b3 ==> GroupOf(p) == ProjectsGroup
    ensures InGroupOrder(b0 + b1 + b2 + b3)
  {
    OrderedAppend(b0, b1, 1);
    OrderedAppend(b0 + b1, b2, 2);
    OrderedAppend(b0 + b1 + b2, b3, 3);
  }

  /** A block of group g is in the context iff the question hits g and g's
      section is non-empty; that block is the one built from g's section. */
  lemma BlockInContextParts(profile: Profile, lower: string, g: Group)
    ensures (exists p :: p in ContextParts(profile, lower) && GroupOf(p) == g)
            <==> Hit(g, lower) && Truthy(Lookup(profile, SectionName(g)))
    ensures forall p :: p in ContextParts(profile, lower) && GroupOf(p) == g ==>
              p == MakePart(g, Lookup(profile, SectionName(g)))
  {
    var b0 := Block(profile, lower, EducationGroup);
    var b1 := Block(profile, lower, ExperienceGroup);
    var b2 := Block(profile, lower, SkillsGroup);
    var b3 := Block(profile, lower, ProjectsGroup);
    var parts := ContextParts(profile, lower);
    assert parts == b0 + b1 + b2 + b3;
    var b := Block(profile, lower, g);
    forall p | p in parts && GroupOf(p) == g
      ensures p in b
    {
      if p in b0 {
        assert g == EducationGroup;
      } else if p in b1 {
        assert g == ExperienceGroup;
      } else if p in b2 {
        assert g == SkillsGroup;
      } else {
        assert p in b3 && g == ProjectsGroup;
      }
    }
    if |b| == 1 {
      assert b[0] in parts by {
        if g == EducationGroup {
        } else if g == ExperienceGroup {
        } else if g == SkillsGroup {
        } else {
        }
      }
    }
  }

  /** A question that hits a group whose section is non-empty gets a non-empty
      context. */
  lemma HitGivesContext(profile: Profile, lower: string)
    ensures forall g :: Hit(g, lower) && Truthy(Lookup(profile, SectionName(g))) ==>
              ContextText(ContextParts(profile, lower)) != ""
  {
    forall g | Hit(g, lower) && Truthy(Lookup(profile, SectionName(g)))
      ensures ContextText(ContextParts(profile, lower)) != ""
    {
      BlockInContextParts(profile, lower, g);
      ContextTextEmpty(ContextParts(profile, lower));
    }
  }

  /** str(n) for an integer. */
  function IntToString(n: int): string {
    if n < 0 then "-" + NatToString(-n) else NatToString(n)
  }

  function NatToString(n: nat): string
    decreases n
  {
    if n < 10 then [('0' as int + n) as char]
    else NatToString(n / 10) + [('0' as int + n % 10) as char]
  }

  /** str(v) of a looked-up value, None for an absent one. Lists and objects
      are shown by a placeholder rather than Python's repr. */
  function Show(v: Option<Json>): (r: string)
    ensures v.Some? && v.value.JStr? ==> r == v.value.s
    ensures r == "" <==> v == Some(JStr(""))
  {
    match v
    case None => "None"
    case Some(JNull) => "None"
    case Some(JBool(b)) => if b then "True" else "False"
    case Some(JNum(n)) => IntToString(n)
    case Some(JStr(s)) => s
    case Some(JList(_)) => "[...]"
    case Some(JObj(_)) => "{...}"
  }

  /** ", ".join(skills.get(key, [])) */
  function ShowList(skills: Json, key: string): (r: string)
    ensures Field(skills, key).None? ==> r == ""
    ensures forall j :: 0 <= j < |ListedItems(skills, key)| ==> Contains(r, Show(Some(ListedItems(skills, key)[j])))
  {
    var items := ListedItems(skills, key);
    var shown := seq(|items|, i requires 0 <= i < |items| => Show(Some(items[i])));
    JoinContainsAll(shown, ", ");
    assert forall j :: 0 <= j < |items| ==> shown[j] == Show(Some(items[j])) && Contains(Join(shown, ", "), shown[j]);
    Join(shown, ", ")
  }

  /** skills.get(key, []) as a list of entries. */
  function ListedItems(skills: Json, key: string): seq<Json> {
    match Field(skills, key) case Some(v) => Items(v) case None => []
  }

  /** One education or experience entry: "- {k1} at {k2} ({k3})". */
  function BulletLine(e: Json, k1: string, k2: string, k3: string): (r: string)
    ensures |r| >= 2 && r[..2] == "- "
    ensures Contains(r, Show(Field(e, k1))) && Contains(r, Show(Field(e, k2)))
            && Contains(r, Show(Field(e, k3)))
  {
    var parts := ["- ", Show(Field(e, k1)), " at ", Show(Field(e, k2)),
                  " (", Show(Field(e, k3)), ")"];
    JoinContainsParts(parts, "", 1);
    JoinContainsParts(parts, "", 3);
    JoinContainsParts(parts, "", 5);
    assert Join(parts, "") == "- " + "" + Join(parts[1..], "");
    Join(parts, "")
  }

  /** One project entry: name and description. */
  function ProjectLine(p: Json): (r: string)
    ensures |r| >= 2 && r[..2] == "- "
    ensures Contains(r, Show(Field(p, "name"))) && Contains(r, Show(Field(p, "description")))
  {
    var parts := ["- ", Show(Field(p, "name")), ": ", Show(Field(p, "description"))];
    JoinContainsParts(parts, "", 1);
    JoinContainsParts(parts, "", 3);
    assert Join(parts, "") == "- " + "" + Join(parts[1..], "");
    Join(parts, "")
  }

  /** The text of one block; it always starts with its heading. */
  function Render(part: ContextPart): (r: string)
    ensures r != ""
  {
    match part
    case EducationPart(es) =>
      "Education:\n" + Join(seq(|es|, i requires 0 <= i < |es| => BulletLine(es[i], "degree", "institution", "period")), "\n")
    case ExperiencePart(es) =>
      "Experience:\n" + Join(seq(|es|, i requires 0 <= i < |es| => BulletLine(es[i], "title", "company", "period")), "\n")
    case SkillsPart(s) =>
      "Skills:\n"
      + "- Languages: " + ShowList(s, "languages") + "\n"
      + "- ML/DL: " + ShowList(s, "ml_dl") + "\n"
      + "- Tools: " + ShowList(s, "tools") + "\n"
      + "- Domains: " + ShowList(s, "domains")
    case ProjectsPart(ps) =>
      "Projects (subset):\n" + Join(seq(|ps|, i requires 0 <= i < |ps| => ProjectLine(ps[i])), "\n")
  }

  /** "\n\n".join(parts) */
  function ContextText(parts: seq<ContextPart>): string {
    Join(seq(|parts|, i requires 0 <= i < |parts| => Render(parts[i])), "\n\n")
  }

  /** The context is empty exactly when no block was collected. */
  lemma ContextTextEmpty(parts: seq<ContextPart>)
    ensures ContextText(parts) == "" <==> parts == []
  {
    var texts := seq(|parts|, i requires 0 <= i < |parts| => Render(parts[i]));
    JoinEmpty(texts, "\n\n");
  }

  /** What _build_profile_context returns for the profile the store would
      load: no profile is needed, and none loaded, when no group matches. */
  function ProfileContext(current: Option<Profile>, lower: string): (r: Result<string, LoadError>)
    ensures r.Err? <==> NeedsProfile(lower) && current.None?
    ensures r.Ok? && r.value != "" ==> NeedsProfile(lower) && current.Some?
    ensures forall g :: current.Some? && Hit(g, lower) && Truthy(Lookup(current.value, SectionName(g))) ==>
              r.Ok? && r.value != ""
  {
    if !NeedsProfile(lower) then Ok("")
    else if current.None? then Err(ProfileNotFound)
    else
      HitGivesContext(current.value, lower);
      Ok(ContextText(ContextParts(current.value, lower)))
  }

  /** A question that hits no keyword group gets an empty context whatever
      the profile holds, and a non-empty context always comes from a group. */
  lemma NoKeywordNoContext(current: Option<Profile>, lower: string)
    ensures !NeedsProfile(lower) ==> ProfileContext(current, lower) == Ok("")
    ensures ProfileContext(current, lower).Ok? && ProfileContext(current, lower).value != "" ==>
              NeedsProfile(lower) && current.Some?
  {
    if NeedsProfile(lower) && current.Some? {
      ContextTextEmpty(ContextParts(current.value, lower));
    }
  }

  /** One `if` of _build_profile_context: look the group's section up when
      the question hits the group, and add its block when it is non-empty. */
  method AddBlock(store: ProfileStore, lower: string, g: Group, parts: seq<ContextPart>)
    returns (r: Result<seq<ContextPart>, LoadError>)
    modifies store`cache
    ensures store.Current() == old(store.Current())
    ensures !Hit(g, lower) ==> r == Ok(parts) && store.cache == old(store.cache)
    ensures Hit(g, lower) && old(store.Current()).None? ==>
              r == Err(ProfileNotFound) && store.cache == old(store.cache)
    ensures Hit(g, lower) && old(store.Current()).Some? ==>
              r == Ok(parts + Block(old(store.Current()).value, lower, g))
              && store.cache == old(store.Current())
  {
    if !Hit(g, lower) {
      return Ok(parts);
    }
    ghost var current := store.Current();
    SectionNameIsResolved(g);
    var section := store.GetProfileSection(SectionName(g));
    if section.Err? {
      return Err(ProfileNotFound);
    }
    assert section.value == SectionOf(current.value, SectionName(g)) == Lookup(current.value, SectionName(g));
    ghost var block := Block(current.value, lower, g);
    if Truthy(section.value) {
      assert block == [MakePart(g, section.value)];
      return Ok(parts + [MakePart(g, section.value)]);
    }
    assert block == [] && parts + block == parts;
    return Ok(parts);
  }

  /** The four `if`s of _build_profile_context: the blocks of the profile the
      store would load, looked up only when a keyword group matches. */
  method CollectBlocks(store: ProfileStore, lower: string) returns (r: Result<seq<ContextPart>, LoadError>)
    modifies store`cache
    ensures r.Err? <==> NeedsProfile(lower) && old(store.Current()).None?
    ensures r.Ok? && old(store.Current()).Some? ==> r.value == ContextParts(old(store.Current()).value, lower)
    ensures r.Ok? && !NeedsProfile(lower) ==> r.value == []
    ensures r.Ok? && NeedsProfile(lower) ==> store.cache == old(store.Current())
    ensures r.Err? || !NeedsProfile(lower) ==> store.cache == old(store.cache)
  {
    ghost var current := store.Current();
    var parts: seq<ContextPart> := [];
    ghost var blocks: seq<ContextPart> := [];
    var added := AddBlock(store, lower, EducationGroup, parts);
    if added.Err? {
      return Err(added.error);
    }
    parts := added.value;
    if current.Some? {
      blocks := Block(current.value, lower, EducationGroup);
    }
    assert parts == blocks;
    added := AddBlock(store, lower, ExperienceGroup, parts);
    if added.Err? {
      return Err(added.error);
    }
    parts := added.value;
    if current.Some? {
      blocks := blocks + Block(current.value, lower, ExperienceGroup);
    }
    assert parts == blocks;
    added := AddBlock(store, lower, SkillsGroup, parts);
    if added.Err? {
      return Err(added.error);
    }
    parts := added.value;
    if current.Some? {
      blocks := blocks + Block(current.value, lower, SkillsGroup);
    }
    assert parts == blocks;
    added := AddBlock(store, lower, ProjectsGroup, parts);
    if added.Err? {
      return Err(added.error);
    }
    parts := added.value;
    if current.Some? {
      blocks := blocks + Block(current.value, lower, ProjectsGroup);
      assert blocks == ContextParts(current.value, lower);
    }
    assert parts == blocks;
    r := Ok(parts);
  }

  /** _build_profile_context, which loads the profile through the section
      lookups only when a keyword group matches. */
  method BuildProfileContext(store: ProfileStore, userMessage: string) returns (r: Result<string, LoadError>)
    modifies store`cache
    ensures r == ProfileContext(old(store.Current()), Lower(userMessage))
    ensures r.Ok? && NeedsProfile(Lower(userMessage)) ==> store.cache == old(store.Current())
    ensures r.Err? || !NeedsProfile(Lower(userMessage)) ==> store.cache == old(store.cache)
  {
    var lower := Lower(userMessage);
    var parts := CollectBlocks(store, lower);
    if parts.Err? {
      return Err(ProfileNotFound);
    }
    r := Ok(ContextText(parts.value));
  }

  // -----------------------------
  // Message stack
  // -----------------------------

  predicate IsDialogue(m: Message) {
    m.role == "user" || m.role == "assistant"
  }

  /** The history entries that re-enter the conversation, in order. */
  function KeepDialogue(history: seq<Message>): (r: seq<Message>)
    ensures |r| <= |history|
    ensures forall i :: 0 <= i < |r| ==> IsDialogue(r[i])
  {
    if history == [] then []
    else
      var last := history[|history| - 1];
      KeepDialogue(history[..|history| - 1]) + (if IsDialogue(last) then [last] else [])
  }

  /** The messages sent to the model: one system message, the kept history,
      then the new user message. */
  function MessageStack(systemContent: string, history: seq<Message>, userMessage: string): (r: seq<Message>)
    ensures 2 <= |r| <= |history| + 2
    ensures r[0] == Message("system", systemContent) && r[|r| - 1] == Message("user", userMessage)
    ensures forall i :: 1 <= i < |r| ==> r[i].role != "system"
  {
    [Message("system", systemContent)] + KeepDialogue(history) + [Message("user", userMessage)]
  }

  /** The loop of _answer_with_profile that builds the message list. */
  method BuildMessages(systemContent: string, history: seq<Message>, userMessage: string)
    returns (messages: seq<Message>)
    ensures messages == MessageStack(systemContent, history, userMessage)
  {
    messages := [Message("system", systemContent)];
    for i := 0 to |history|
      invariant messages == [Message("system", systemContent)] + KeepDialogue(history[..i])
    {
      assert history[..i + 1][..i] == history[..i];
      if IsDialogue(history[i]) {
        messages := messages + [Message(history[i].role, history[i].content)];
      }
    }
    assert history[..|history|] == history;
    messages := messages + [Message("user", userMessage)];
  }

  /** The kept history is exactly the user and assistant entries of the history. */
  lemma {:induction false} KeepDialogueMembers(history: seq<Message>)
    ensures forall m :: m in KeepDialogue(history) <==> m in history && IsDialogue(m)
    ensures |KeepDialogue(history)| <= |history|
    decreases |history|
  {
    if history != [] {
      var init := history[..|history| - 1];
      KeepDialogueMembers(init);
      assert history == init + [history[|history| - 1]];
    }
  }

  /** Filtering the history respects its order: the kept entries of a + b are
      those of a followed by those of b. */
  lemma {:induction false} KeepDialogueAppend(a: seq<Message>, b: seq<Message>)
    ensures KeepDialogue(a + b) == KeepDialogue(a) + KeepDialogue(b)
    decreases |b|
  {
    if b == [] {
      assert a + b == a;
    } else {
      var init := b[..|b| - 1];
      assert (a + b)[..|a + b| - 1] == a + init;
      KeepDialogueAppend(a, init);
    }
  }

  /** A history of user and assistant turns only, as the chat front end keeps
      it, is passed on whole. */
  lemma {:induction false} KeepDialogueOfDialogue(history: seq<Message>)
    requires forall i :: 0 <= i < |history| ==> IsDialogue(history[i])
    ensures KeepDialogue(history) == history
    decreases |history|
  {
    if history != [] {
      var init := history[..|history| - 1];
      KeepDialogueOfDialogue(init);
    }
  }

  /** The shape of the message stack: a system message first, the user's
      message last, and between them only user and assistant entries of the
      history, two more messages than kept entries. */
  lemma MessageStackShape(systemContent: string, history: seq<Message>, userMessage: string)
    ensures var stack := MessageStack(systemContent, history, userMessage);
      && |stack| == 2 + |KeepDialogue(history)|
      && stack[0] == Message("system", systemContent)
      && stack[|stack| - 1] == Message("user", userMessage)
      && (forall i :: 1 <= i < |stack| - 1 ==> IsDialogue(stack[i]) && stack[i] in history)
  {
    var stack := MessageStack(systemContent, history, userMessage);
    KeepDialogueMembers(history);
    forall i | 1 <= i < |stack| - 1
      ensures IsDialogue(stack[i]) && stack[i] in history
    {
      assert stack[i] == KeepDialogue(history)[i - 1];
    }
  }

  // -----------------------------
  // Answering a question
  // -----------------------------

  /** The answer given for the model's reply content (None when the call
      failed): the stripped content, or a fixed text when that is empty. */
  function AnswerText(reply: Option<string>): (r: string)
    ensures r != ""
    ensures reply.Some? && Strip(reply.value) != "" ==> r == Strip(reply.value)
    ensures reply.Some? && Strip(reply.value) == "" ==> r == RephraseReply
    ensures reply.None? ==> r == ModelErrorReply
  {
    match reply
    case None => ModelErrorReply
    case Some(content) =>
      var stripped := Strip(content);
      if stripped == "" then RephraseReply else stripped
  }

  /** What _answer_with_profile returns for the profile the store would load. */
  function Answer(current: Option<Profile>, userMessage: string, history: seq<Message>,
                  chat: seq<Message> -> Option<string>): (r: Result<string, LoadError>)
    ensures r.Ok? ==> r.value != ""
    ensures r.Err? <==> NeedsProfile(Lower(userMessage)) && current.None?
  {
    match ProfileContext(current, Lower(userMessage))
    case Err(e) => Err(e)
    case Ok(context) =>
      Ok(AnswerText(chat(MessageStack(SystemPrompt + "\n" + context, history, userMessage))))
  }

  /** _answer_with_profile: a missing profile file is the only failure that
      escapes; otherwise the answer is never empty. */
  method AnswerWithProfile(store: ProfileStore, userMessage: string, history: seq<Message>,
                           chat: seq<Message> -> Option<string>)
    returns (r: Result<string, LoadError>)
    modifies store`cache
    ensures r == Answer(old(store.Current()), userMessage, history, chat)
    ensures r.Ok? ==> r.value != ""
    ensures r.Err? ==> NeedsProfile(Lower(userMessage)) && old(store.Current()).None?
    ensures r.Ok? && NeedsProfile(Lower(userMessage)) ==> store.cache == old(store.Current())
    ensures r.Err? || !NeedsProfile(Lower(userMessage)) ==> store.cache == old(store.cache)
  {
    var context := BuildProfileContext(store, userMessage);
    if context.Err? {
      return Err(context.error);
    }
    var messages := BuildMessages(SystemPrompt + "\n" + context.value, history, userMessage);
    r := Ok(AnswerText(chat(messages)));
  }

  // -----------------------------
  // One turn
  // -----------------------------

  /** The invariant of every turn result: a payload exactly when a lead was logged. */
  predicate ConsistentTurn(t: TurnResult) {
    t.leadLogged <==> t.leadPayload.Some?
  }

  /** {**lead, **log_result}: every lead key is kept, and the log's keys win. */
  function Merge(lead: Lead, logResult: map<string, string>): (r: map<string, string>)
    ensures r.Keys == lead.Keys + logResult.Keys
    ensures forall k :: k in logResult ==> r[k] == logResult[k]
    ensures forall k :: k in lead && k !in logResult ==> r[k] == lead[k]
  {
    lead + logResult
  }

  /** A logged payload holds the four required fields as the recruiter gave
      them, the status "saved_locally" and the timestamp of the written row. */
  lemma LoggedPayloadShape(lead: Lead, path: string, timestamp: string)
    requires HasMinimumLeadFields(Some(lead))
    ensures var payload := Merge(lead, LogResult(path, timestamp));
      && (forall k :: k in RequiredFields ==> k in payload && payload[k] == lead[k] && payload[k] != "")
      && payload["status"] == "saved_locally"
      && payload["timestamp"] == LeadRow(lead, timestamp).timestamp
  {
    var result := LogResult(path, timestamp);
    assert forall k :: k in RequiredFields ==> k !in result;
  }

  /**
   * run_agent. The extraction result, the model, the clock and the success
   * of the file write are parameters; the store and the lead log are the
   * state it may change. The only failure that escapes is a missing profile
   * file in question-and-answer mode.
   */
  method RunAgent(store: ProfileStore, leads: LeadLog, userMessage: string, history: seq<Message>,
                  extracted: Option<Lead>, chat: seq<Message> -> Option<string>,
                  timestamp: string, writable: bool)
    returns (r: Result<TurnResult, LoadError>)
    modifies store`cache, leads`file
    ensures r.Ok? ==> ConsistentTurn(r.value)
    // question-and-answer mode
    ensures !LooksLikeRecruiterMessage(userMessage) ==>
              leads.file == old(leads.file)
              && r == (match Answer(old(store.Current()), userMessage, history, chat)
                       case Err(e) => Err(e)
                       case Ok(answer) => Ok(TurnResult(answer, false, None)))
    ensures !LooksLikeRecruiterMessage(userMessage) && r.Ok? && NeedsProfile(Lower(userMessage)) ==>
              store.cache == old(store.Current())
    ensures !LooksLikeRecruiterMessage(userMessage) && (r.Err? || !NeedsProfile(Lower(userMessage))) ==>
              store.cache == old(store.cache)
    // recruiter mode
    ensures LooksLikeRecruiterMessage(userMessage) ==> r.Ok? && store.cache == old(store.cache)
    ensures LooksLikeRecruiterMessage(userMessage) && !HasMinimumLeadFields(extracted) ==>
              r == Ok(TurnResult(FollowUpReply, false, None)) && leads.file == old(leads.file)
    ensures LooksLikeRecruiterMessage(userMessage) && HasMinimumLeadFields(extracted) && writable ==>
              r == Ok(TurnResult(RecordedReply(extracted.value), true,
                                 Some(Merge(extracted.value, LogResult(leads.path, timestamp)))))
              && leads.file == Some(Appended(old(leads.file), LeadRow(extracted.value, timestamp)))
    ensures LooksLikeRecruiterMessage(userMessage) && HasMinimumLeadFields(extracted) && !writable ==>
              r == Ok(TurnResult(LoggingFailureReply, false, None)) && leads.file == old(leads.file)
    // a lead is logged only from recruiter mode with a complete lead
    ensures r.Ok? && r.value.leadLogged ==>
              LooksLikeRecruiterMessage(userMessage) && HasMinimumLeadFields(extracted)
              && r.value.leadPayload == Some(Merge(extracted.value, LogResult(leads.path, timestamp)))
  {
    if LooksLikeRecruiterMessage(userMessage) {
      if extracted.Some? && HasMinimumLeadFields(extracted) {
        var lead := extracted.value;
        CompleteLeadHasNothingMissing(lead);
        var logged := leads.LogRecruiterLead(lead, timestamp, writable);
        if logged.Ok? {
          return Ok(TurnResult(RecordedReply(lead), true, Some(Merge(lead, logged.value))));
        }
        return Ok(TurnResult(LoggingFailureReply, false, None));
      }
      return Ok(TurnResult(FollowUpReply, false, None));
    }
    var answer := AnswerWithProfile(store, userMessage, history, chat);
    if answer.Err? {
      return Err(answer.error);
    }
    r := Ok(TurnResult(answer.value, false, None));
  }
}
