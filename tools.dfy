/**
 * The local tools the agent uses (tools.py): the lazily cached profile, the
 * section lookup with its alias table, the case-insensitive project search,
 * and the recruiter-lead log, an append-only CSV file modelled as a sequence
 * of lines.
 */
module Tools {
  import opened Wrappers
  import opened Text
  import opened Json

  // -----------------------------
  // Profile loading
  // -----------------------------

  /** The top-level object of profile.json, section name to section. */
  type Profile = map<string, Json>

  datatype LoadError = ProfileNotFound

  /**
   * The profile cache (_PROFILE_CACHE) together with the file it is loaded
   * from. `disk` is what profile.json holds, None when the file is missing.
   */
  class ProfileStore {
    var cache: Option<Profile>
    var disk: Option<Profile>

    constructor (disk: Option<Profile>)
      ensures this.disk == disk && cache == None
    {
      this.disk := disk;
      cache := None;
    }

    /** The profile the next load returns: the cached one, else the file's. */
    function Current(): Option<Profile>
      reads this
    {
      if cache.Some? then cache else disk
    }

    /** _load_profile: reads the file only while nothing is cached. */
    method Load() returns (r: Result<Profile, LoadError>)
      modifies this`cache
      ensures old(cache).Some? ==> r == Ok(old(cache).value) && cache == old(cache)
      ensures old(cache).None? && disk.None? ==> r == Err(ProfileNotFound) && cache == None
      ensures old(cache).None? && disk.Some? ==> r == Ok(disk.value) && cache == disk
      ensures r.Ok? <==> old(Current()).Some?
      ensures r.Ok? ==> r.value == old(Current()).value && cache == old(Current())
    {
      if cache.None? {
        if disk.None? {
          return Err(ProfileNotFound);
        }
        cache := disk;
      }
      r := Ok(cache.value);
    }

    /** refresh_profile_cache: forget the cached profile and load the file again. */
    method Refresh() returns (r: Result<(), LoadError>)
      modifies this`cache
      ensures cache == disk
      ensures r.Ok? <==> disk.Some?
    {
      cache := None;
      var loaded := Load();
      r := if loaded.Ok? then Ok(()) else Err(loaded.error);
    }

    /** get_profile_section: the empty name answers {} without loading. */
    method GetProfileSection(name: string) returns (r: Result<Json, LoadError>)
      modifies this`cache
      ensures name == "" ==> r == Ok(EmptyObject) && cache == old(cache)
      ensures name != "" && old(Current()).None? ==> r == Err(ProfileNotFound) && cache == old(cache)
      ensures name != "" && old(Current()).Some? ==>
                r == Ok(SectionOf(old(Current()).value, name)) && cache == old(Current())
    {
      if name == "" {
        return Ok(EmptyObject);
      }
      var profile := Load();
      if profile.Err? {
        return Err(profile.error);
      }
      r := Ok(SectionOf(profile.value, name));
    }

    /** get_project_details: the empty name answers None without loading. */
    method GetProjectDetails(name: string) returns (r: Result<Option<Json>, LoadError>)
      modifies this`cache
      ensures name == "" ==> r == Ok(None) && cache == old(cache)
      ensures name != "" && old(Current()).None? ==> r == Err(ProfileNotFound) && cache == old(cache)
      ensures name != "" && old(Current()).Some? ==>
                r == Ok(FirstMatching(ProjectsOf(old(Current()).value), Strip(Lower(name))))
                && cache == old(Current())
    {
      if name == "" {
        return Ok(None);
      }
      var profile := Load();
      if profile.Err? {
        return Err(profile.error);
      }
      var found := FindProject(ProjectsOf(profile.value), Strip(Lower(name)));
      r := Ok(found);
    }
  }

  // -----------------------------
  // Section lookup
  // -----------------------------

  /** The alias table of get_profile_section. */
  const Aliases: map<string, string> := map[
    "skills" := "skills",
    "skill" := "skills",
    "education" := "education",
    "experience" := "experience",
    "projects" := "projects",
    "project" := "projects",
    "job_preferences" := "job_preferences",
    "job" := "job_preferences",
    "preferences" := "job_preferences",
    "links" := "links",
    "contact" := "contact"
  ]

  /** The section key a requested name resolves to: lower-cased, stripped, then
      looked up in the alias table, unknown keys passing through. */
  function Resolve(name: string): (r: string)
    ensures r in AliasTargets || (r == Strip(Lower(name)) && r !in Aliases)
  {
    var key := Strip(Lower(name));
    if key in Aliases then
      assert Aliases[key] in AliasTargets;
      Aliases[key]
    else
      key
  }

  /** profile.get(resolved, {}): a section of the profile, or {} when the
      resolved key is absent. */
  function SectionOf(profile: Profile, name: string): (r: Json)
    ensures Resolve(name) in profile ==> r == profile[Resolve(name)]
    ensures Resolve(name) !in profile ==> r == EmptyObject
    ensures r == EmptyObject || r in profile.Values
  {
    Lookup(profile, Resolve(name))
  }

  /** profile.get(key, {}) for a key that is already resolved. */
  function Lookup(profile: Profile, key: string): Json {
    if key in profile then profile[key] else EmptyObject
  }

  /** The section names the aliases resolve to. */
  const AliasTargets: set<string> :=
    {"skills", "education", "experience", "projects", "job_preferences", "links", "contact"}

  /** Lower-case letters and underscores only. */
  predicate IsLowerWord(t: string) {
    forall i :: 0 <= i < |t| ==> 'a' <= t[i] <= 'z' || t[i] == '_'
  }

  lemma LowerWordIsNormal(t: string)
    requires IsLowerWord(t) && t != ""
    ensures Strip(Lower(t)) == t
  {
    assert Lower(t) == t;
    StripUnchanged(t);
  }

  /** Each section name the aliases resolve to is a lower-case word that the
      table maps to itself. */
  lemma AliasTargetIsNormal(t: string)
    requires t in AliasTargets
    ensures IsLowerWord(t) && t != ""
    ensures t in Aliases && Aliases[t] == t
  {
    if t == "skills" {
    } else if t == "education" {
    } else if t == "experience" {
    } else if t == "projects" {
    } else if t == "job_preferences" {
    } else if t == "links" {
    } else {
      assert t == "contact";
    }
  }

  /** Every alias target is lower-case, stripped, and maps to itself. */
  lemma AliasTargetsAreFixed(key: string)
    requires key in Aliases
    ensures Aliases[key] in Aliases && Aliases[Aliases[key]] == Aliases[key]
    ensures Strip(Lower(Aliases[key])) == Aliases[key]
  {
    var t := Aliases[key];
    assert t in AliasTargets;
    AliasTargetIsNormal(t);
    LowerWordIsNormal(t);
  }

  /** Resolving a resolved name changes nothing. */
  lemma ResolveIdempotent(name: string)
    ensures Resolve(Resolve(name)) == Resolve(name)
  {
    var key := Strip(Lower(name));
    if key in Aliases {
      AliasTargetsAreFixed(key);
    } else {
      NormalizeIdempotent(name);
    }
  }

  /** A listed alias resolves through the table; any other normalized key is
      its own section name; a key the profile lacks answers {}. */
  lemma ResolveCases(name: string, profile: Profile)
    ensures Strip(Lower(name)) in Aliases ==> Resolve(name) == Aliases[Strip(Lower(name))]
    ensures Strip(Lower(name)) !in Aliases ==> Resolve(name) == Strip(Lower(name))
    ensures Resolve(name) !in profile ==> SectionOf(profile, name) == EmptyObject
    ensures SectionOf(profile, Resolve(name)) == SectionOf(profile, name)
  {
    ResolveIdempotent(name);
  }

  // -----------------------------
  // Project search
  // -----------------------------

  /** profile.get("projects", []) when it is a list. */
  function ProjectsOf(profile: Profile): seq<Json> {
    if "projects" in profile then Items(profile["projects"]) else []
  }

  /** proj.get("name", "") */
  function ProjectName(project: Json): string {
    match Field(project, "name")
    case Some(JStr(s)) => s
    case _ => ""
  }

  predicate NameMatches(project: Json, key: string) {
    Lower(ProjectName(project)) == key
  }

  /** The first project, in list order, whose lower-cased name is `key`. */
  function FirstMatching(projects: seq<Json>, key: string): Option<Json> {
    if projects == [] then None
    else if NameMatches(projects[0], key) then Some(projects[0])
    else FirstMatching(projects[1..], key)
  }

  /** The loop of get_project_details, returning at the first match. */
  method FindProject(projects: seq<Json>, key: string) returns (r: Option<Json>)
    ensures r == FirstMatching(projects, key)
  {
    var i := 0;
    while i < |projects|
      invariant 0 <= i <= |projects|
      invariant FirstMatching(projects[i..], key) == FirstMatching(projects, key)
    {
      assert projects[i..][1..] == projects[i + 1..];
      if NameMatches(projects[i], key) {
        return Some(projects[i]);
      }
      i := i + 1;
    }
    return None;
  }

  /** FirstMatching finds nothing exactly when no project matches, and what it
      finds is the earliest match. */
  lemma {:induction false} FirstMatchingIsFirst(projects: seq<Json>, key: string)
    ensures FirstMatching(projects, key).None? <==>
              forall i :: 0 <= i < |projects| ==> !NameMatches(projects[i], key)
    ensures FirstMatching(projects, key).Some? ==>
              exists i :: 0 <= i < |projects| && projects[i] == FirstMatching(projects, key).value
                          && NameMatches(projects[i], key)
                          && forall j :: 0 <= j < i ==> !NameMatches(projects[j], key)
  {
    if projects != [] && !NameMatches(projects[0], key) {
      FirstMatchingIsFirst(projects[1..], key);
      var r := FirstMatching(projects, key);
      if r.Some? {
        var i :| 0 <= i < |projects[1..]| && projects[1..][i] == r.value
                 && NameMatches(projects[1..][i], key)
                 && forall j :: 0 <= j < i ==> !NameMatches(projects[1..][j], key);
        assert projects[i + 1] == r.value;
        assert forall j :: 0 <= j < i + 1 ==> !NameMatches(projects[j], key) by {
          forall j | 0 <= j < i + 1 ensures !NameMatches(projects[j], key) {
            if j > 0 { assert projects[j] == projects[1..][j - 1]; }
          }
        }
      } else {
        assert forall i :: 0 <= i < |projects| ==> !NameMatches(projects[i], key) by {
          forall i | 0 <= i < |projects| ensures !NameMatches(projects[i], key) {
            if i > 0 { assert projects[i] == projects[1..][i - 1]; }
          }
        }
      }
    }
  }

  /** Asking for a project by any capitalisation of its name, with any
      surrounding whitespace, returns that project's record unchanged, provided
      the name itself has no surrounding whitespace and no earlier project
      bears the same name. */
  lemma {:induction false} LookupByOwnName(projects: seq<Json>, i: int, query: string)
    requires 0 <= i < |projects|
    requires Strip(Lower(query)) == Lower(ProjectName(projects[i]))
    requires forall j :: 0 <= j < i ==> Lower(ProjectName(projects[j])) != Lower(ProjectName(projects[i]))
    ensures FirstMatching(projects, Strip(Lower(query))) == Some(projects[i])
  {
    var key := Strip(Lower(query));
    FirstMatchingIsFirst(projects, key);
    var r := FirstMatching(projects, key);
    assert NameMatches(projects[i], key);
    var k :| 0 <= k < |projects| && projects[k] == r.value && NameMatches(projects[k], key)
             && forall j :: 0 <= j < k ==> !NameMatches(projects[j], key);
    assert k == i;
  }

  // -----------------------------
  // Recruiter lead logging
  // -----------------------------

  /** A lead as extracted from the recruiter's message; every value a string. */
  type Lead = map<string, string>

  /** The fields a lead must carry, in the order they are reported missing. */
  const RequiredFields: seq<string> := ["recruiter_name", "company", "role", "contact"]

  /** The CSV header, in column order. */
  const Columns: seq<string> := ["timestamp", "recruiter_name", "company", "role", "contact", "notes"]

  /** lead.get(key) is truthy: present and non-empty. */
  predicate Present(lead: Lead, key: string) {
    key in lead && lead[key] != ""
  }

  /** lead.get(key, "") */
  function Get(lead: Lead, key: string): string {
    if key in lead then lead[key] else ""
  }

  /** [k for k in keys if not lead.get(k)] */
  function MissingFrom(keys: seq<string>, lead: Lead): (r: seq<string>)
    ensures |r| <= |keys|
    ensures forall k :: k in r <==> k in keys && !Present(lead, k)
  {
    if keys == [] then []
    else (if Present(lead, keys[0]) then [] else [keys[0]]) + MissingFrom(keys[1..], lead)
  }

  /** The required fields the lead lacks. */
  function MissingFields(lead: Lead): (r: seq<string>)
    ensures |r| <= |RequiredFields|
    ensures forall k :: k in r <==> k in RequiredFields && !Present(lead, k)
  {
    MissingFrom(RequiredFields, lead)
  }

  /** The missing fields are exactly the absent ones among recruiter_name,
      company, role and contact, listed in that order. */
  lemma MissingFieldsInOrder(lead: Lead)
    ensures MissingFields(lead) ==
              (if Present(lead, "recruiter_name") then [] else ["recruiter_name"])
              + (if Present(lead, "company") then [] else ["company"])
              + (if Present(lead, "role") then [] else ["role"])
              + (if Present(lead, "contact") then [] else ["contact"])
  {
    var one: seq<string> := ["contact"];
    var two: seq<string> := ["role"] + one;
    var three: seq<string> := ["company"] + two;
    assert RequiredFields == ["recruiter_name"] + three;
    var c0 := if Present(lead, "recruiter_name") then [] else ["recruiter_name"];
    var c1 := if Present(lead, "company") then [] else ["company"];
    var c2 := if Present(lead, "role") then [] else ["role"];
    var c3 := if Present(lead, "contact") then [] else ["contact"];
    MissingFromCons("contact", [], lead);
    assert MissingFrom(one, lead) == c3;
    MissingFromCons("role", one, lead);
    assert MissingFrom(two, lead) == c2 + c3;
    MissingFromCons("company", two, lead);
    assert MissingFrom(three, lead) == c1 + (c2 + c3);
    MissingFromCons("recruiter_name", three, lead);
    assert MissingFields(lead) == c0 + (c1 + (c2 + c3));
    SeqAssoc4(c0, c1, c2, c3);
  }

  /** Regrouping a four-way concatenation, proved apart from the lead facts
      that make the same step expensive inside MissingFieldsInOrder. */
  lemma SeqAssoc4<T>(a: seq<T>, b: seq<T>, c: seq<T>, d: seq<T>)
    ensures a + (b + (c + d)) == a + b + c + d
  {
  }

  lemma MissingFromCons(key: string, keys: seq<string>, lead: Lead)
    ensures MissingFrom([key] + keys, lead) ==
              (if Present(lead, key) then [] else [key]) + MissingFrom(keys, lead)
  {
    assert ([key] + keys)[1..] == keys;
  }

  /** One written CSV record. */
  datatype Row = Row(timestamp: string, recruiterName: string, company: string,
                     role: string, contact: string, notes: string)

  /** A line of the lead log: the header, or one record. */
  datatype LogLine = HeaderLine | RowLine(row: Row)

  /** The cells of a line in column order. */
  function Cells(line: LogLine): seq<string> {
    match line
    case HeaderLine => Columns
    case RowLine(r) => [r.timestamp, r.recruiterName, r.company, r.role, r.contact, r.notes]
  }

  /** The record written for a lead at a time. */
  function LeadRow(lead: Lead, timestamp: string): (r: Row)
    ensures |Cells(RowLine(r))| == |Columns|
    ensures Cells(RowLine(r))[0] == timestamp
    ensures forall i :: 1 <= i < |Columns| ==> Cells(RowLine(r))[i] == Get(lead, Columns[i])
  {
    Row(timestamp, Get(lead, "recruiter_name"), Get(lead, "company"), Get(lead, "role"),
        Get(lead, "contact"), Get(lead, "notes"))
  }

  /** What log_recruiter_lead returns on success. */
  function LogResult(path: string, timestamp: string): (r: map<string, string>)
    ensures r.Keys == {"status", "path", "timestamp"}
  {
    map["status" := "saved_locally", "path" := path, "timestamp" := timestamp]
  }

  /** A log written only by log_recruiter_lead: the header, then records. */
  ghost predicate WellFormedLog(lines: seq<LogLine>) {
    |lines| >= 1 && lines[0] == HeaderLine
    && forall i :: 1 <= i < |lines| ==> lines[i].RowLine?
  }

  /** The file after one record is appended: a new file gets the header first. */
  function Appended(file: Option<seq<LogLine>>, row: Row): (r: seq<LogLine>)
    ensures |r| >= 1 && r[|r| - 1] == RowLine(row)
    ensures file.Some? ==> r[..|r| - 1] == file.value
    ensures file.None? ==> |r| == 2 && r[0] == HeaderLine
  {
    match file
    case None => [HeaderLine, RowLine(row)]
    case Some(lines) => lines + [RowLine(row)]
  }

  function HeaderCount(lines: seq<LogLine>): nat {
    if lines == [] then 0
    else HeaderCount(lines[..|lines| - 1]) + (if lines[|lines| - 1] == HeaderLine then 1 else 0)
  }

  /** The records of a log, in order. */
  function Rows(lines: seq<LogLine>): seq<Row> {
    if lines == [] then []
    else Rows(lines[..|lines| - 1]) + (match lines[|lines| - 1] case HeaderLine => [] case RowLine(r) => [r])
  }

  lemma {:induction false} WellFormedHasOneHeader(lines: seq<LogLine>)
    requires WellFormedLog(lines)
    ensures HeaderCount(lines) == 1
    decreases |lines|
  {
    if |lines| > 1 {
      var init := lines[..|lines| - 1];
      assert WellFormedLog(init);
      WellFormedHasOneHeader(init);
    }
  }

  /** Appending to a new or well-formed log keeps it well formed with a single
      header at the start, adds exactly one record, and leaves the earlier
      records as they were. */
  lemma {:induction false} AppendedLog(file: Option<seq<LogLine>>, row: Row)
    requires file.None? || WellFormedLog(file.value)
    ensures WellFormedLog(Appended(file, row))
    ensures HeaderCount(Appended(file, row)) == 1
    ensures Appended(file, row)[0] == HeaderLine
    ensures Rows(Appended(file, row)) == (if file.None? then [] else Rows(file.value)) + [row]
  {
    var lines := Appended(file, row);
    WellFormedHasOneHeader(lines);
    if file.None? {
      assert lines[..1] == [HeaderLine];
      assert [HeaderLine][..0] == [];
    } else {
      assert lines[..|lines| - 1] == file.value;
    }
  }

  datatype LogError =
    | MissingLeadFields(fields: seq<string>)  // the ValueError raised before anything is written
    | WriteFailed                             // the file could not be opened or written

  /** The lead log file (recruiter_leads.csv); None while it does not exist. */
  class LeadLog {
    const path: string
    var file: Option<seq<LogLine>>

    ghost predicate Valid()
      reads this
    {
      file.None? || WellFormedLog(file.value)
    }

    constructor (path: string, file: Option<seq<LogLine>>)
      ensures this.path == path && this.file == file
    {
      this.path := path;
      this.file := file;
    }

    /** log_recruiter_lead, with the clock reading and the success of the
        file write passed in. */
    method LogRecruiterLead(lead: Lead, timestamp: string, writable: bool)
      returns (r: Result<map<string, string>, LogError>)
      modifies this`file
      ensures MissingFields(lead) != [] ==>
                r == Err(MissingLeadFields(MissingFields(lead))) && file == old(file)
      ensures MissingFields(lead) == [] && !writable ==> r == Err(WriteFailed) && file == old(file)
      ensures MissingFields(lead) == [] && writable ==>
                r == Ok(LogResult(path, timestamp))
                && file == Some(Appended(old(file), LeadRow(lead, timestamp)))
      ensures r.Ok? ==> r.value["status"] == "saved_locally"
                        && r.value["timestamp"] == Rows(file.value)[|Rows(file.value)| - 1].timestamp
      ensures old(Valid()) ==> Valid()
    {
      var missing := MissingFields(lead);
      if missing != [] {
        return Err(MissingLeadFields(missing));
      }
      if !writable {
        return Err(WriteFailed);
      }
      var row := LeadRow(lead, timestamp);
      ghost var before := file;
      file := Some(Appended(file, row));
      r := Ok(LogResult(path, timestamp));
      if before.None? || WellFormedLog(before.value) {
        AppendedLog(before, row);
      } else {
        assert file.value[..|file.value| - 1] == before.value;
      }
    }
  }
}
