/** `JiraReader`: the extraction of an issue record from a JIRA REST
    response. The JSON values are `Py.Json`; a `.get` on a value that is not
    an object raises an AttributeError, which the model returns as `Err`. */
module JiraReader {
  import opened Py
  import opened Text

  const NoGet := AttributeError("object has no attribute 'get'")
  const NotIterable := TypeError("object is not iterable")

  /** `v.get(k, default)` where the source expects `v` to be an object. */
  function GetFrom(v: Json, k: string, default: Json): (r: Result<Json>)
    ensures r.Ok? <==> v.JObj?
    ensures v.JObj? && k in v.fields ==> r == Ok(v.fields[k])
    ensures v.JObj? && k !in v.fields ==> r == Ok(default)
  {
    if v.JObj? then Ok(Get(v.fields, k, default)) else Err(NoGet)
  }

  /** The objects a loop `for x in v: x.get(...)` visits, or what it raises:
      an empty string or object has nothing to visit, any other string or
      object yields strings (which have no `.get`), and a scalar is not iterable. */
  function ObjectsOf(v: Json): (r: Result<seq<map<string, Json>>>)
    ensures v.JArr? ==> (r.Ok? <==> forall x <- v.items :: x.JObj?)
    ensures r.Ok? && v.JArr? ==> |r.value| == |v.items| && forall i :: 0 <= i < |v.items| ==> v.items[i] == JObj(r.value[i])
    ensures r.Ok? && !v.JArr? ==> r.value == []
    ensures v.JNull? || v.JBool? || v.JNum? ==> r == Err(NotIterable)
  {
    match v
    case JArr(xs) =>
      if forall x <- xs :: x.JObj? then Ok(seq(|xs|, i requires 0 <= i < |xs| => xs[i].fields)) else Err(NoGet)
    case JStr(s) => if s == [] then Ok([]) else Err(NoGet)
    case JObj(m) => if |m| == 0 then Ok([]) else Err(NoGet)
    case _ => Err(NotIterable)
  }

  // ---------------------------------------------------------------- people

  /** The user record of `_extract_user`. */
  datatype User = User(name: Json, email: Json, displayName: Json)

  const UnknownUser := User(JStr("Unknown"), JStr(""), JStr("Unknown"))

  /** `_extract_user`: a falsy value is the unknown user; otherwise the
      display name falls back to the login name, then to `Unknown`. */
  function ExtractUser(u: Json): (r: Result<User>)
    ensures !Truthy(u) ==> r == Ok(UnknownUser)
    ensures Truthy(u) ==> (r.Ok? <==> u.JObj?)
    ensures r.Ok? && u.JObj? && Truthy(u) ==>
              (r.value.name == if "name" in u.fields then u.fields["name"] else JStr(""))
              && (r.value.email == if "emailAddress" in u.fields then u.fields["emailAddress"] else JStr(""))
              && ("displayName" in u.fields ==> r.value.displayName == u.fields["displayName"])
              && ("displayName" !in u.fields && "name" in u.fields ==> r.value.displayName == u.fields["name"])
              && ("displayName" !in u.fields && "name" !in u.fields ==> r.value.displayName == JStr("Unknown"))
  {
    if !Truthy(u) then Ok(UnknownUser)
    else if !u.JObj? then Err(NoGet)
    else
      var m := u.fields;
      Ok(User(Get(m, "name", JStr("")), Get(m, "emailAddress", JStr("")),
              Get(m, "displayName", Get(m, "name", JStr("Unknown")))))
  }

  // ---------------------------------------------------------------- versions and components

  /** `[v.get('name', '') for v in entries if v.get('name')]`. */
  function NamedOf(entries: seq<map<string, Json>>): (names: seq<Json>)
    ensures |names| <= |entries|
    ensures forall n <- names :: Truthy(n)
  {
    if entries == [] then []
    else
      var e := entries[|entries| - 1];
      NamedOf(entries[..|entries| - 1]) + (if "name" in e && Truthy(e["name"]) then [e["name"]] else [])
  }

  /** The filter keeps order: the names of a concatenation are the names of
      its parts, one after the other. */
  lemma {:induction false} NamedOfAppend(a: seq<map<string, Json>>, b: seq<map<string, Json>>)
    ensures NamedOf(a + b) == NamedOf(a) + NamedOf(b)
  {
    if b == [] {
      assert a + b == a;
    } else {
      assert (a + b)[..|a + b| - 1] == a + b[..|b| - 1];
      NamedOfAppend(a, b[..|b| - 1]);
    }
  }

  /** One entry contributes its name exactly when the name is truthy. */
  lemma NamedOfOne(e: map<string, Json>)
    ensures NamedOf([e]) == if "name" in e && Truthy(e["name"]) then [e["name"]] else []
  {
    assert [e][..0] == [];
  }

  /** `_extract_versions` and `_extract_components`, which share one body. */
  function NamesOf(v: Json): (r: Result<seq<Json>>)
    ensures r.Ok? <==> ObjectsOf(v).Ok?
    ensures r.Ok? ==> r.value == NamedOf(ObjectsOf(v).value)
  {
    var entries :- ObjectsOf(v);
    Ok(NamedOf(entries))
  }

  // ---------------------------------------------------------------- links

  /** One entry of `_extract_links`. */
  datatype LinkEntry = LinkEntry(linkType: Json, direction: string, issueKey: Json, summary: Json)

  /** The entry for the linked issue in one direction. */
  function Linked(linkType: Json, direction: string, issue: Json): (r: Result<LinkEntry>)
    ensures r.Ok? ==> r.value.direction == direction && r.value.linkType == linkType
  {
    if !issue.JObj? then Err(NoGet)
    else
      var fields := Get(issue.fields, "fields", JObj(map[]));
      var summary :- GetFrom(fields, "summary", JStr(""));
      Ok(LinkEntry(linkType, direction, Get(issue.fields, "key", JStr("")), summary))
  }

  /** The entries of one link: the inward one, then the outward one. */
  function LinkEntries(link: map<string, Json>): (r: Result<seq<LinkEntry>>)
    ensures r.Ok? ==> |r.value| == (if "inwardIssue" in link then 1 else 0) + (if "outwardIssue" in link then 1 else 0)
    ensures r.Ok? && "inwardIssue" in link ==> r.value[0].direction == "inward"
    ensures r.Ok? && "outwardIssue" in link ==> r.value[|r.value| - 1].direction == "outward"
  {
    var typeObj := Get(link, "type", JObj(map[]));
    var linkType :- GetFrom(typeObj, "name", JStr(""));
    var inward :- if "inwardIssue" in link then AsList(Linked(linkType, "inward", link["inwardIssue"])) else Ok([]);
    var outward :- if "outwardIssue" in link then AsList(Linked(linkType, "outward", link["outwardIssue"])) else Ok([]);
    Ok(inward + outward)
  }

  function AsList(r: Result<LinkEntry>): (l: Result<seq<LinkEntry>>)
    ensures l.Ok? <==> r.Ok?
    ensures l.Ok? ==> l.value == [r.value]
    ensures l.Err? ==> l.error == r.error
  {
    match r
    case Ok(e) => Ok([e])
    case Err(x) => Err(x)
  }

  /** `LinkEntries` unfolded, once the link type is known. */
  lemma LinkEntriesSteps(link: map<string, Json>, linkType: Json)
    requires GetFrom(Get(link, "type", JObj(map[])), "name", JStr("")) == Ok(linkType)
    ensures var inward := if "inwardIssue" in link then AsList(Linked(linkType, "inward", link["inwardIssue"])) else Ok([]);
            var outward := if "outwardIssue" in link then AsList(Linked(linkType, "outward", link["outwardIssue"])) else Ok([]);
            LinkEntries(link) == if inward.Err? then Err(inward.error)
                                 else if outward.Err? then Err(outward.error)
                                 else Ok(inward.value + outward.value)
  {
  }

  /** The entries of the first links, or the error the first bad link raises. */
  function LinksOf(links: seq<map<string, Json>>): (r: Result<seq<LinkEntry>>)
  {
    if links == [] then Ok([])
    else
      var front :- LinksOf(links[..|links| - 1]);
      var last :- LinkEntries(links[|links| - 1]);
      Ok(front + last)
  }

  /** The number of links with an issue in the given direction. */
  function CountWith(links: seq<map<string, Json>>, key: string): (n: nat)
    ensures n <= |links|
  {
    if links == [] then 0
    else CountWith(links[..|links| - 1], key) + (if key in links[|links| - 1] then 1 else 0)
  }

  /** `_extract_links`. */
  method ExtractLinks(links: seq<map<string, Json>>) returns (r: Result<seq<LinkEntry>>)
    ensures r == LinksOf(links)
  {
    var extracted: seq<LinkEntry> := [];
    var i := 0;
    while i < |links|
      invariant 0 <= i <= |links|
      invariant LinksOf(links[..i]) == Ok(extracted)
    {
      assert links[..i + 1][..i] == links[..i];
      var link := links[i];
      var typeObj := Get(link, "type", JObj(map[]));
      var linkType := GetFrom(typeObj, "name", JStr(""));
      if linkType.Err? {
        LinksOfStops(links, i + 1);
        return Err(linkType.error);
      }
      ghost var before := extracted;
      ghost var inward: Result<seq<LinkEntry>> := Ok([]);
      if "inwardIssue" in link {
        var entry := Linked(linkType.value, "inward", link["inwardIssue"]);
        inward := AsList(entry);
        if entry.Err? {
          LinkEntriesSteps(link, linkType.value);
          LinksOfStops(links, i + 1);
          return Err(entry.error);
        }
        extracted := extracted + [entry.value];
      }
      ghost var outward: Result<seq<LinkEntry>> := Ok([]);
      if "outwardIssue" in link {
        var entry := Linked(linkType.value, "outward", link["outwardIssue"]);
        outward := AsList(entry);
        if entry.Err? {
          LinkEntriesSteps(link, linkType.value);
          LinksOfStops(links, i + 1);
          return Err(entry.error);
        }
        extracted := extracted + [entry.value];
      }
      LinkEntriesSteps(link, linkType.value);
      assert LinkEntries(link) == Ok(inward.value + outward.value);
      assert extracted == before + (inward.value + outward.value);
      i := i + 1;
    }
    assert links[..i] == links;
    r := Ok(extracted);
  }

  /** Once a link raises, so does every longer list of links. */
  lemma {:induction false} LinksOfStops(links: seq<map<string, Json>>, n: nat)
    requires 0 < n <= |links| && LinkEntries(links[n - 1]).Err?
    ensures LinksOf(links[..n]).Err?
    ensures LinksOf(links) == LinksOf(links[..n])
  {
    assert links[..n][..n - 1] == links[..n - 1];
    LinksOfErrorKept(links, n);
  }

  lemma {:induction false} LinksOfErrorKept(links: seq<map<string, Json>>, n: nat)
    requires 0 < n <= |links| && LinksOf(links[..n]).Err?
    ensures LinksOf(links).Err? && LinksOf(links).error == LinksOf(links[..n]).error
  {
    if n == |links| {
      assert links[..n] == links;
    } else {
      var front := links[..|links| - 1];
      assert front[..n] == links[..n];
      LinksOfErrorKept(front, n);
    }
  }

  /** Every inward link and every outward link gives exactly one entry. */
  lemma {:induction false} LinksCount(links: seq<map<string, Json>>)
    requires LinksOf(links).Ok?
    ensures |LinksOf(links).value| == CountWith(links, "inwardIssue") + CountWith(links, "outwardIssue")
  {
    if links != [] {
      LinksCount(links[..|links| - 1]);
    }
  }

  // ---------------------------------------------------------------- custom fields

  predicate IsCustomField(key: string) { StartsWith(key, "customfield_") }

  /** `_extract_custom_fields`: the custom fields whose value is not None. */
  method ExtractCustomFields(fields: map<string, Json>) returns (custom: map<string, Json>)
    ensures forall k :: k in custom <==> k in fields && IsCustomField(k) && fields[k] != JNull
    ensures forall k <- custom :: custom[k] == fields[k]
  {
    custom := map[];
    var rest := fields.Keys;
    while rest != {}
      invariant rest <= fields.Keys
      invariant forall k :: k in custom <==> k in fields && k !in rest && IsCustomField(k) && fields[k] != JNull
      invariant forall k <- custom :: custom[k] == fields[k]
      decreases |rest|
    {
      var key :| key in rest;
      if IsCustomField(key) && fields[key] != JNull {
        custom := custom[key := fields[key]];
      }
      rest := rest - {key};
    }
  }

  // ---------------------------------------------------------------- description

  datatype SectionName = StepsToReproduce | ExpectedBehavior | ActualBehavior | RootCause

  /** `re.search(<the section's pattern>, text, IGNORECASE | DOTALL).group(1)`. */
  type SectionFinder = (SectionName, string) -> Option<string>

  /** The four parsed sections and `description_parsed`. */
  datatype Sections = Sections(steps: string, expected: string, actual: string, rootCause: string, parsed: Json)

  /** A section's text: the stripped match, or empty. */
  function SectionText(m: Option<string>): (t: string)
    ensures Strip(t) == t
    ensures m.None? ==> t == ""
  {
    if m.Some? then
      var t := Strip(m.value);
      StripOfStripped(t);
      t
    else ""
  }

  /** `_parse_description_sections`. A truthy description that is not a
      string raises a TypeError in `re.search`. */
  function ParseDescriptionSections(description: Json, find: SectionFinder): (r: Result<Sections>)
    ensures r.Ok? ==> r.value.parsed == description
    ensures !Truthy(description) ==> r == Ok(Sections("", "", "", "", description))
    ensures r.Err? <==> Truthy(description) && !description.JStr?
    ensures r.Ok? ==> Strip(r.value.steps) == r.value.steps && Strip(r.value.expected) == r.value.expected
                      && Strip(r.value.actual) == r.value.actual && Strip(r.value.rootCause) == r.value.rootCause
  {
    if !Truthy(description) then Ok(Sections("", "", "", "", description))
    else if !description.JStr? then Err(TypeError("expected string or bytes-like object"))
    else
      var s := description.s;
      Ok(Sections(SectionText(find(StepsToReproduce, s)), SectionText(find(ExpectedBehavior, s)),
                  SectionText(find(ActualBehavior, s)), SectionText(find(RootCause, s)), description))
  }

  /** `convert_jira_markup_to_markdown`; the substitutions are `rewrite`.
      Falsy text comes back as it is. */
  function ConvertJiraMarkup(text: Json, rewrite: string -> string): (r: Result<Json>)
    ensures !Truthy(text) ==> r == Ok(text)
    ensures r.Ok? && Truthy(text) ==> text.JStr? && r.value.JStr?
    ensures r.Err? <==> Truthy(text) && !text.JStr?
  {
    if !Truthy(text) then Ok(text)
    else if text.JStr? then Ok(JStr(rewrite(text.s)))
    else Err(TypeError("expected string or bytes-like object"))
  }

  // ---------------------------------------------------------------- the issue record

  datatype Attachment = Attachment(filename: Json, url: Json, size: Json, mimeType: Json, localPath: string)

  datatype Comment = Comment(author: Json, body: Json, created: Json, updated: Json)

  /** `_extract_attachments`. */
  function AttachmentsOf(entries: seq<map<string, Json>>): (r: seq<Attachment>)
    ensures |r| == |entries|
  {
    seq(|entries|, i requires 0 <= i < |entries| =>
      Attachment(Get(entries[i], "filename", JStr("")), Get(entries[i], "content", JStr("")),
                 Get(entries[i], "size", JNum(0)), Get(entries[i], "mimeType", JStr("")), ""))
  }

  /** `_extract_comments` over the comment list. */
  function CommentsOf(entries: seq<map<string, Json>>): (r: Result<seq<Comment>>)
    ensures r.Ok? ==> |r.value| == |entries|
  {
    if entries == [] then Ok([])
    else
      var front :- CommentsOf(entries[..|entries| - 1]);
      var c := entries[|entries| - 1];
      var author :- ExtractUser(Get(c, "author", JNull));
      Ok(front + [Comment(author.displayName, Get(c, "body", JStr("")), Get(c, "created", JStr("")),
                          Get(c, "updated", JStr("")))])
  }

  /** The record `extract_issue_data` builds; `sections` is filled in by the
      final `update`. */
  datatype IssueData = IssueData(
    issueKey: Json, issueId: Json, selfUrl: Json,
    summary: Json, description: Json, issueType: Json, status: Json, priority: Json,
    reporter: User, assignee: User,
    created: Json, updated: Json, resolved: Json,
    fixVersions: seq<Json>, affectedVersions: seq<Json>,
    labels: Json, components: seq<Json>, environment: Json,
    attachments: seq<Attachment>, links: seq<LinkEntry>, comments: seq<Comment>,
    customFields: map<string, Json>,
    sections: Option<Sections>)

  /** The dictionary literal of `extract_issue_data`, in evaluation order. */
  function IssueFieldsOf(response: map<string, Json>, issueKey: string): (r: Result<IssueData>)
    ensures r.Ok? ==> r.value.issueKey == if "key" in response then response["key"] else JStr(issueKey)
    ensures r.Ok? ==> r.value.sections.None?
    ensures r.Ok? ==> Get(response, "fields", JObj(map[])).JObj?
  {
    var fieldsValue := Get(response, "fields", JObj(map[]));
    if !fieldsValue.JObj? then Err(NoGet)
    else
      var fields := fieldsValue.fields;
      var issueType :- GetFrom(Get(fields, "issuetype", JObj(map[])), "name", JStr("Bug"));
      var status :- GetFrom(Get(fields, "status", JObj(map[])), "name", JStr(""));
      var priority :- GetFrom(Get(fields, "priority", JObj(map[])), "name", JStr("Medium"));
      var reporter :- ExtractUser(Get(fields, "reporter", JNull));
      var assignee :- ExtractUser(Get(fields, "assignee", JNull));
      var fixVersions :- NamesOf(Get(fields, "fixVersions", JArr([])));
      var affectedVersions :- NamesOf(Get(fields, "versions", JArr([])));
      var components :- NamesOf(Get(fields, "components", JArr([])));
      var attachmentEntries :- ObjectsOf(Get(fields, "attachment", JArr([])));
      var linkEntries :- ObjectsOf(Get(fields, "issuelinks", JArr([])));
      var links :- LinksOf(linkEntries);
      var commentList :- GetFrom(Get(fields, "comment", JObj(map[])), "comments", JArr([]));
      var commentEntries :- ObjectsOf(commentList);
      var comments :- CommentsOf(commentEntries);
      Ok(IssueData(
        Get(response, "key", JStr(issueKey)), Get(response, "id", JNull), Get(response, "self", JNull),
        Get(fields, "summary", JStr("")), Get(fields, "description", JStr("")), issueType, status, priority,
        reporter, assignee,
        Get(fields, "created", JStr("")), Get(fields, "updated", JStr("")), Get(fields, "resolutiondate", JNull),
        fixVersions, affectedVersions,
        Get(fields, "labels", JArr([])), components, Get(fields, "environment", JStr("")),
        AttachmentsOf(attachmentEntries), links, comments,
        CustomOf(fields),
        None))
  }

  /** The custom fields of `fields`, as `_extract_custom_fields` collects them. */
  function CustomOf(fields: map<string, Json>): (custom: map<string, Json>)
    ensures forall k :: k in custom <==> k in fields && IsCustomField(k) && fields[k] != JNull
    ensures forall k <- custom :: custom[k] == fields[k]
  {
    map k | k in fields && IsCustomField(k) && fields[k] != JNull :: fields[k]
  }

  /** The record with its parsed sections, or the first error. */
  function WithSections(fields: Result<IssueData>, find: SectionFinder): (r: Result<IssueData>)
    ensures fields.Err? ==> r == fields
    ensures r.Ok? ==> fields.Ok? && r.value.sections.Some? && r.value.sections.value.parsed == fields.value.description
  {
    var d :- fields;
    var s :- ParseDescriptionSections(d.description, find);
    Ok(d.(sections := Some(s)))
  }

  /** `parsed_data` after `extract_issue_data`: unchanged when the
      dictionary literal raised, the bare record when the section parsing
      raised, the full record otherwise. */
  function ParsedAfter(before: Option<IssueData>, fields: Result<IssueData>, find: SectionFinder): Option<IssueData> {
    match fields
    case Err(_) => before
    case Ok(d) =>
      match WithSections(fields, find)
      case Err(_) => Some(d)
      case Ok(full) => Some(full)
  }

  /** `JiraReader`: the issue key it was made for and the last response it read. */
  class Reader {
    var issueKey: string
    var rawData: map<string, Json>
    /** `None` while `parsed_data` is still the empty dictionary. */
    var parsedData: Option<IssueData>

    /** `__init__`: the key is kept upper-cased. */
    constructor(issueKey: string)
      ensures this.issueKey == Upper(issueKey)
      ensures rawData == map[] && parsedData == None
    {
      this.issueKey := Upper(issueKey);
      rawData := map[];
      parsedData := None;
    }

    /** `extract_issue_data`. When the dictionary literal raises, the old
        parsed data stays; when only the section parsing raises, the parsed
        data holds the record without its sections. */
    method ExtractIssueData(response: map<string, Json>, find: SectionFinder) returns (r: Result<IssueData>)
      modifies this
      ensures issueKey == old(issueKey) && rawData == response
      ensures r == WithSections(IssueFieldsOf(response, issueKey), find)
      ensures parsedData == ParsedAfter(old(parsedData), IssueFieldsOf(response, issueKey), find)
    {
      var key := issueKey;
      var fields := IssueFieldsOf(response, key);
      rawData := response;
      if fields.Err? {
        assert rawData == response && issueKey == key;
        return Err(fields.error);
      }
      var full := AddSections(fields.value, find);
      parsedData := if full.Ok? then Some(full.value) else Some(fields.value);
      assert rawData == response && issueKey == key;
      r := full;
    }
  }

  /** The final `update` of `extract_issue_data`: the record with the
      sections of its description. */
  method AddSections(data: IssueData, find: SectionFinder) returns (r: Result<IssueData>)
    ensures r == WithSections(Ok(data), find)
  {
    var sections := ParseDescriptionSections(data.description, find);
    if sections.Err? {
      return Err(sections.error);
    }
    r := Ok(data.(sections := Some(sections.value)));
  }

  /** The issue key of a parsed record is the response's own key, or the
      upper-cased key the reader was made for. */
  lemma IssueKeyFallback(response: map<string, Json>, key: string)
    requires "key" !in response && IssueFieldsOf(response, Upper(key)).Ok?
    ensures IssueFieldsOf(response, Upper(key)).value.issueKey == JStr(Upper(key))
    ensures forall i :: 0 <= i < |key| ==> !IsLower(Upper(key)[i])
  {
  }
}
