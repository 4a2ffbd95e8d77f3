/** The path-scoped field extractor for NF-e invoice documents (`InvoiceParser`).

    The document arrives as the sequence of events an HTML tokenizer produces: a start
    tag, an end tag or a run of text, with tag names already in lower case. The parser
    keeps, for each of seven section tags, whether it is open, the name of the tag last
    started (cleared by any end tag) and the fields captured so far. A text event is
    captured only when the sections around it are open and it sits in a leaf tag, not
    directly in a section tag.

    The first half of the module states each event's effect as a function of the
    parser's state; the class at the end is the mutable parser, whose methods are proved
    to follow those functions. */
module NfeParser {
  import opened Wrappers
  import opened Text

  datatype Event = Start(name: string) | End(name: string) | Data(text: string)

  /** The section tags whose openness the parser tracks. */
  const Sections: set<string> := {"infnfe", "ide", "dest", "det", "prod", "total", "icmstot"}

  /** The fields the parser may capture. */
  const ResultKeys: set<string> := {"number", "date", "customer", "operation", "total", "tax"}

  datatype ParserState = ParserState(
    track: map<string, bool>,
    tag: Option<string>,
    result: map<string, string>)

  /** The parser's section flags are exactly the seven section tags. */
  predicate Tracked(s: ParserState) { s.track.Keys == Sections }

  /** The state after `reset()`: every section closed, no current tag, nothing captured. */
  function InitialState(): (s: ParserState)
    ensures Tracked(s) && s.tag == None && s.result == map[]
    ensures forall k :: k in Sections ==> !s.track[k]
  {
    ParserState(map k | k in Sections :: false, None, map[])
  }

  /** `handle_starttag`: the tag becomes the current tag and, if it is a section, opens. */
  function AfterStart(s: ParserState, t: string): (r: ParserState)
    requires Tracked(s)
    ensures Tracked(r) && r.tag == Some(t) && r.result == s.result
    ensures forall k :: k in Sections ==> r.track[k] == (k == t || s.track[k])
  {
    s.(tag := Some(t), track := if t in s.track then s.track[t := true] else s.track)
  }

  /** `handle_endtag`: no tag is current any more and, if the tag is a section, it closes. */
  function AfterEnd(s: ParserState, t: string): (r: ParserState)
    requires Tracked(s)
    ensures Tracked(r) && r.tag == None && r.result == s.result
    ensures forall k :: k in Sections ==> r.track[k] == (k != t && s.track[k])
  {
    s.(tag := None, track := if t in s.track then s.track[t := false] else s.track)
  }

  /** `is_prev(*tags)`: every named section is open and none of them is the current tag. */
  predicate Within(s: ParserState, tags: seq<string>)
    requires forall i :: 0 <= i < |tags| ==> tags[i] in s.track
  {
    forall i :: 0 <= i < |tags| ==> s.tag != Some(tags[i]) && s.track[tags[i]]
  }

  /** The flags after setting each of `tags` to closed, in order. */
  function Close(track: map<string, bool>, tags: seq<string>): (r: map<string, bool>)
    ensures forall k :: k in r <==> k in track || k in tags
    ensures forall k :: k in tags ==> !r[k]
    ensures forall k :: k in track && k !in tags ==> r[k] == track[k]
    decreases |tags|
  {
    if tags == [] then track else Close(track[tags[0] := false], tags[1..])
  }

  /** `free(*tags, if_has=...)`: once every `ifHas` field is captured, close `tags`;
      otherwise change nothing. */
  function AfterFree(s: ParserState, tags: seq<string>, ifHas: seq<string>): (r: ParserState)
    ensures r.tag == s.tag && r.result == s.result
    ensures (exists i :: 0 <= i < |ifHas| && ifHas[i] !in s.result) ==> r == s
    ensures (forall i :: 0 <= i < |ifHas| ==> ifHas[i] in s.result) ==>
              (forall k :: k in tags ==> k in r.track && !r.track[k])
              && (forall k :: k in s.track && k !in tags ==> k in r.track && r.track[k] == s.track[k])
    ensures s.track.Keys <= r.track.Keys
    ensures forall k :: k in r.track ==> k in s.track || k in tags
  {
    if forall i :: 0 <= i < |ifHas| ==> ifHas[i] in s.result then s.(track := Close(s.track, tags))
    else s
  }

  /** The sections that must be open, none of them current, for a field to be captured. */
  function Scope(key: string): seq<string>
  {
    if key == "number" || key == "date" then ["infnfe", "ide"]
    else if key == "customer" then ["infnfe", "dest"]
    else if key == "operation" then ["infnfe", "det", "prod"]
    else ["infnfe", "total", "icmstot"]
  }

  /** The leaf tags a field is read from. */
  function Leaves(key: string): set<string>
  {
    if key == "number" then {"nnf"}
    else if key == "date" then {"dhemi", "demi"}
    else if key == "customer" then {"xnome"}
    else if key == "operation" then {"cfop"}
    else if key == "total" then {"vnf"}
    else if key == "tax" then {"vicms"}
    else {}
  }

  /** A text event in state s is in the place where field `key` belongs. */
  predicate InScope(s: ParserState, key: string)
    requires Tracked(s)
  {
    key in ResultKeys && Within(s, Scope(key)) && s.tag.Some? && s.tag.value in Leaves(key)
  }

  /** The field `key` was added or given a new value between s and r. */
  predicate Changed(s: ParserState, r: ParserState, key: string)
  {
    key in r.result && (key !in s.result || s.result[key] != r.result[key])
  }

  /** `handle_data`: the branches tried in order identification, destination, product,
      tax totals, each capturing its leaf fields and then offering to close its sections. */
  function AfterData(s: ParserState, data: string): (r: ParserState)
    requires Tracked(s)
    ensures Tracked(r) && r.tag == s.tag
    ensures !Within(s, ["infnfe"]) ==> r == s
    ensures s.result.Keys <= r.result.Keys <= s.result.Keys + ResultKeys
    ensures forall k :: k in Sections && r.track[k] ==> s.track[k]
  {
    if !Within(s, ["infnfe"]) then s
    else if Within(s, ["ide"]) then
      var result :=
        if s.tag == Some("nnf") then s.result["number" := data]
        else if s.tag == Some("dhemi") then s.result["date" := Prefix(data, 10)]
        else if s.tag == Some("demi") then s.result["date" := data]
        else s.result;
      AfterFree(s.(result := result), ["ide"], ["number", "date"])
    else if Within(s, ["dest"]) then
      if s.tag == Some("xnome") then AfterFree(s.(result := s.result["customer" := data]), ["dest"], [])
      else s
    else if Within(s, ["det", "prod"]) then
      if s.tag == Some("cfop") then AfterFree(s.(result := s.result["operation" := data]), ["det", "prod"], [])
      else s
    else if Within(s, ["total", "icmstot"]) then
      var result :=
        if s.tag == Some("vnf") then s.result["total" := data]
        else if s.tag == Some("vicms") then s.result["tax" := data]
        else s.result;
      AfterFree(s.(result := result), ["total", "icmstot"], ["total", "tax"])
    else s
  }

  /** One event of `feed`: a tag event sets the current tag and keeps every field, a text
      event keeps the current tag and may only add or overwrite known fields. */
  function AfterEvent(s: ParserState, e: Event): (r: ParserState)
    requires Tracked(s)
    ensures Tracked(r)
    ensures e.Start? ==> r.tag == Some(e.name) && r.result == s.result
    ensures e.End? ==> r.tag.None? && r.result == s.result
    ensures e.Data? ==> r.tag == s.tag
    ensures s.result.Keys <= r.result.Keys <= s.result.Keys + ResultKeys
  {
    match e
    case Start(t) => AfterStart(s, t)
    case End(t) => AfterEnd(s, t)
    case Data(d) => AfterData(s, d)
  }

  /** `feed`: the events in order. Captured fields are never removed, and only the six
      known fields are ever captured. */
  function AfterEvents(s: ParserState, events: seq<Event>): (r: ParserState)
    requires Tracked(s)
    ensures Tracked(r)
    ensures s.result.Keys <= r.result.Keys <= s.result.Keys + ResultKeys
    decreases |events|
  {
    if events == [] then s else AfterEvents(AfterEvent(s, events[0]), events[1..])
  }

  datatype ParsedInvoice = ParsedInvoice(
    number: string,
    date: string,
    customer: string,
    operation: string,
    total: string,
    tax: string)

  /** The KeyError raised for the first field, in constructor order, that is missing. */
  datatype ParseError = MissingField(key: string)

  /** What the parser captured from a whole document. */
  function Captured(events: seq<Event>): (result: map<string, string>)
    ensures result.Keys <= ResultKeys
    ensures (forall i :: 0 <= i < |events| ==> !events[i].Data?) ==> result == map[]
  {
    TagsCaptureNothing(InitialState(), events);
    AfterEvents(InitialState(), events).result
  }

  /** Tag events alone never capture a field. */
  lemma {:induction false} TagsCaptureNothing(s: ParserState, events: seq<Event>)
    requires Tracked(s)
    ensures (forall i :: 0 <= i < |events| ==> !events[i].Data?) ==> AfterEvents(s, events).result == s.result
    decreases |events|
  {
    if events != [] && forall i :: 0 <= i < |events| ==> !events[i].Data? {
      assert forall i :: 0 <= i < |events| - 1 ==> events[1..][i] == events[i + 1];
      TagsCaptureNothing(AfterEvent(s, events[0]), events[1..]);
    }
  }

  /** `InvoiceParser.parse` over the document's events: all six fields are required, and
      the date is cut to its first ten characters. */
  function ParseEvents(events: seq<Event>): (r: Result<ParsedInvoice, ParseError>)
    ensures r.Success? <==> ResultKeys <= Captured(events).Keys
    ensures r.Failure? ==> r.error.key in ResultKeys && r.error.key !in Captured(events)
    ensures r.Success? ==> r.value.date == Prefix(Captured(events)["date"], 10)
    ensures r.Success? ==> (r.value.number == Captured(events)["number"]
                            && r.value.customer == Captured(events)["customer"]
                            && r.value.operation == Captured(events)["operation"]
                            && r.value.total == Captured(events)["total"]
                            && r.value.tax == Captured(events)["tax"])
  {
    var res := Captured(events);
    if "number" !in res then Failure(MissingField("number"))
    else if "date" !in res then Failure(MissingField("date"))
    else if "customer" !in res then Failure(MissingField("customer"))
    else if "operation" !in res then Failure(MissingField("operation"))
    else if "total" !in res then Failure(MissingField("total"))
    else if "tax" !in res then Failure(MissingField("tax"))
    else Success(ParsedInvoice(res["number"], Prefix(res["date"], 10), res["customer"],
                               res["operation"], res["total"], res["tax"]))
  }

  lemma WithinSplit(s: ParserState, a: string, b: string)
    requires Tracked(s) && a in Sections && b in Sections
    ensures Within(s, [a, b]) <==> Within(s, [a]) && Within(s, [b])
  {
    assert Within(s, [a]) && Within(s, [b]) ==> Within(s, [a, b]) by {
      if Within(s, [a]) && Within(s, [b]) {
        forall i | 0 <= i < 2 ensures s.tag != Some([a, b][i]) && s.track[[a, b][i]] {
          if i == 0 { assert [a][0] == a; } else { assert [b][0] == b; }
        }
      }
    }
    assert Within(s, [a, b]) ==> Within(s, [a]) && Within(s, [b]) by {
      if Within(s, [a, b]) {
        assert [a, b][0] == a && [a, b][1] == b;
      }
    }
  }

  lemma WithinSplit3(s: ParserState, a: string, b: string, c: string)
    requires Tracked(s) && a in Sections && b in Sections && c in Sections
    ensures Within(s, [a, b, c]) <==> Within(s, [a]) && Within(s, [b, c])
  {
    assert Within(s, [a]) && Within(s, [b, c]) ==> Within(s, [a, b, c]) by {
      if Within(s, [a]) && Within(s, [b, c]) {
        forall i | 0 <= i < 3 ensures s.tag != Some([a, b, c][i]) && s.track[[a, b, c][i]] {
          if i == 0 { assert [a][0] == a; } else { assert [b, c][i - 1] == [a, b, c][i]; }
        }
      }
    }
    assert Within(s, [a, b, c]) ==> Within(s, [a]) && Within(s, [b, c]) by {
      if Within(s, [a, b, c]) {
        assert [a, b, c][0] == a && [a, b, c][1] == b && [a, b, c][2] == c;
      }
    }
  }

  lemma UpdateChangesOnly(s: ParserState, r: ParserState, key: string, v: string)
    requires r.result == s.result[key := v]
    ensures forall k :: Changed(s, r, k) ==> k == key && r.result[k] == v
  {
  }

  lemma NoUpdateNoChange(s: ParserState, r: ParserState)
    requires r.result == s.result
    ensures forall k :: !Changed(s, r, k)
  {
  }

  /** Path scoping: a text event changes at most one field, and only the field whose
      sections are open around it and whose leaf tag is current; the field then holds the
      text (a timestamp cut to its date). */
  lemma {:induction false} DataScoped(s: ParserState, data: string)
    requires Tracked(s)
    ensures var r := AfterData(s, data);
      && (forall k :: Changed(s, r, k) ==>
            InScope(s, k) && r.result[k] == if s.tag == Some("dhemi") then Prefix(data, 10) else data)
      && (forall k1, k2 :: Changed(s, r, k1) && Changed(s, r, k2) ==> k1 == k2)
  {
    var r := AfterData(s, data);
    var v := if s.tag == Some("dhemi") then Prefix(data, 10) else data;
    if !Within(s, ["infnfe"]) {
      NoUpdateNoChange(s, r);
    } else if Within(s, ["ide"]) {
      WithinSplit(s, "infnfe", "ide");
      if s.tag == Some("nnf") {
        UpdateChangesOnly(s, r, "number", v);
        assert InScope(s, "number");
      } else if s.tag == Some("dhemi") || s.tag == Some("demi") {
        UpdateChangesOnly(s, r, "date", v);
        assert InScope(s, "date");
      } else {
        NoUpdateNoChange(s, r);
      }
    } else if Within(s, ["dest"]) {
      if s.tag == Some("xnome") {
        WithinSplit(s, "infnfe", "dest");
        UpdateChangesOnly(s, r, "customer", v);
        assert InScope(s, "customer");
      } else {
        NoUpdateNoChange(s, r);
      }
    } else if Within(s, ["det", "prod"]) {
      if s.tag == Some("cfop") {
        WithinSplit3(s, "infnfe", "det", "prod");
        UpdateChangesOnly(s, r, "operation", v);
        assert InScope(s, "operation");
      } else {
        NoUpdateNoChange(s, r);
      }
    } else if Within(s, ["total", "icmstot"]) {
      WithinSplit3(s, "infnfe", "total", "icmstot");
      if s.tag == Some("vnf") {
        UpdateChangesOnly(s, r, "total", v);
        assert InScope(s, "total");
      } else if s.tag == Some("vicms") {
        UpdateChangesOnly(s, r, "tax", v);
        assert InScope(s, "tax");
      } else {
        NoUpdateNoChange(s, r);
      }
    } else {
      NoUpdateNoChange(s, r);
    }
  }

  /** Which text events fill which field. The branches are tried in order and the first
      whose sections are open takes the text, whatever the current tag: its own leaf tag
      fills its field, any other tag captures nothing, and no later branch is tried.
      Capturing the customer closes the destination, capturing the operation closes the
      detail and product, and the identification and totals close once both of their
      fields are in. */
  lemma DataCaptures(s: ParserState, d: string)
    requires Tracked(s) && Within(s, ["infnfe"])
    ensures var r := AfterData(s, d);
      && (Within(s, ["ide"]) ==>
            r.result == if s.tag == Some("nnf") then s.result["number" := d]
                        else if s.tag == Some("dhemi") then s.result["date" := Prefix(d, 10)]
                        else if s.tag == Some("demi") then s.result["date" := d]
                        else s.result)
      && (Within(s, ["ide"]) && "number" in r.result && "date" in r.result ==> !r.track["ide"])
      && (!Within(s, ["ide"]) && Within(s, ["dest"]) ==>
            r.result == if s.tag == Some("xnome") then s.result["customer" := d] else s.result)
      && (!Within(s, ["ide"]) && Within(s, ["dest"]) && s.tag == Some("xnome") ==> !r.track["dest"])
      && (!Within(s, ["ide"]) && !Within(s, ["dest"]) && Within(s, ["det", "prod"]) ==>
            r.result == if s.tag == Some("cfop") then s.result["operation" := d] else s.result)
      && (!Within(s, ["ide"]) && !Within(s, ["dest"]) && Within(s, ["det", "prod"]) && s.tag == Some("cfop") ==>
            !r.track["det"] && !r.track["prod"])
      && ((!Within(s, ["ide"]) && !Within(s, ["dest"]) && !Within(s, ["det", "prod"])
           && Within(s, ["total", "icmstot"])) ==>
            r.result == if s.tag == Some("vnf") then s.result["total" := d]
                        else if s.tag == Some("vicms") then s.result["tax" := d]
                        else s.result)
      && ((!Within(s, ["ide"]) && !Within(s, ["dest"]) && !Within(s, ["det", "prod"])
           && Within(s, ["total", "icmstot"]) && "total" in r.result && "tax" in r.result) ==>
            !r.track["total"] && !r.track["icmstot"])
      && ((!Within(s, ["ide"]) && !Within(s, ["dest"]) && !Within(s, ["det", "prod"])
           && !Within(s, ["total", "icmstot"])) ==> r.result == s.result)
  {
  }

  lemma CloseOne(track: map<string, bool>, a: string)
    ensures Close(track, [a]) == track[a := false]
  {
    assert [a][1..] == [];
  }

  lemma CloseTwo(track: map<string, bool>, a: string, b: string)
    ensures Close(track, [a, b]) == track[a := false][b := false]
  {
    assert [a, b][1..] == [b];
    CloseOne(track[a := false], b);
  }

  /** The whole effect of a text event on the section flags, branch by branch: the
      identification and the totals close once both of their fields are in and stay open
      otherwise, the destination closes exactly on its name, the detail and product exactly
      on the operation code, and no other flag ever changes. */
  lemma DataFlags(s: ParserState, d: string)
    requires Tracked(s)
    ensures var r := AfterData(s, d);
      && (!Within(s, ["infnfe"]) ==> r == s)
      && (Within(s, ["infnfe"]) && Within(s, ["ide"]) ==>
            r.track == if "number" in r.result && "date" in r.result then s.track["ide" := false] else s.track)
      && (Within(s, ["infnfe"]) && !Within(s, ["ide"]) && Within(s, ["dest"]) ==>
            r.track == if s.tag == Some("xnome") then s.track["dest" := false] else s.track)
      && (Within(s, ["infnfe"]) && !Within(s, ["ide"]) && !Within(s, ["dest"]) && Within(s, ["det", "prod"]) ==>
            r.track == if s.tag == Some("cfop") then s.track["det" := false]["prod" := false] else s.track)
      && ((Within(s, ["infnfe"]) && !Within(s, ["ide"]) && !Within(s, ["dest"]) && !Within(s, ["det", "prod"])
           && Within(s, ["total", "icmstot"])) ==>
            r.track == if "total" in r.result && "tax" in r.result
                       then s.track["total" := false]["icmstot" := false] else s.track)
      && ((Within(s, ["infnfe"]) && !Within(s, ["ide"]) && !Within(s, ["dest"]) && !Within(s, ["det", "prod"])
           && !Within(s, ["total", "icmstot"])) ==> r == s)
  {
    if Within(s, ["infnfe"]) {
      if Within(s, ["ide"]) {
        IdeFlags(s, d);
      } else if Within(s, ["dest"]) {
        CloseOne(s.track, "dest");
      } else if Within(s, ["det", "prod"]) {
        CloseTwo(s.track, "det", "prod");
      } else if Within(s, ["total", "icmstot"]) {
        TotalsFlags(s, d);
      }
    }
  }

  lemma IdeFlags(s: ParserState, d: string)
    requires Tracked(s) && Within(s, ["infnfe"]) && Within(s, ["ide"])
    ensures var r := AfterData(s, d);
      r.track == if "number" in r.result && "date" in r.result then s.track["ide" := false] else s.track
  {
    var res :=
      if s.tag == Some("nnf") then s.result["number" := d]
      else if s.tag == Some("dhemi") then s.result["date" := Prefix(d, 10)]
      else if s.tag == Some("demi") then s.result["date" := d]
      else s.result;
    var s' := s.(result := res);
    assert AfterData(s, d) == AfterFree(s', ["ide"], ["number", "date"]);
    BothPresent(res, "number", "date");
    CloseOne(s.track, "ide");
  }

  lemma BothPresent(m: map<string, string>, a: string, b: string)
    ensures (forall i :: 0 <= i < |[a, b]| ==> [a, b][i] in m) <==> a in m && b in m
    ensures (exists i :: 0 <= i < |[a, b]| && [a, b][i] !in m) <==> !(a in m && b in m)
  {
    assert [a, b][0] == a && [a, b][1] == b;
  }

  lemma TotalsFlags(s: ParserState, d: string)
    requires Tracked(s) && Within(s, ["infnfe"]) && !Within(s, ["ide"]) && !Within(s, ["dest"])
    requires !Within(s, ["det", "prod"]) && Within(s, ["total", "icmstot"])
    ensures var r := AfterData(s, d);
      r.track == if "total" in r.result && "tax" in r.result
                 then s.track["total" := false]["icmstot" := false] else s.track
  {
    var res :=
      if s.tag == Some("vnf") then s.result["total" := d]
      else if s.tag == Some("vicms") then s.result["tax" := d]
      else s.result;
    var s' := s.(result := res);
    assert AfterData(s, d) == AfterFree(s', ["total", "icmstot"], ["total", "tax"]);
    BothPresent(res, "total", "tax");
    CloseTwo(s.track, "total", "icmstot");
  }

  /** Text directly inside a section tag, not inside one of its leaves, captures nothing. */
  lemma {:induction false} SectionTextIgnored(s: ParserState, d: string)
    requires Tracked(s) && s.tag.Some? && s.tag.value in Sections
    ensures AfterData(s, d).result == s.result
  {
    var r := AfterData(s, d);
    DataScoped(s, d);
    assert forall k :: k in ResultKeys ==> s.tag.value !in Leaves(k);
    assert forall k :: !Changed(s, r, k);
  }

  /** The two date fields agree: a timestamp in `dhEmi` and its first ten characters in
      `dEmi` leave the same captured fields. */
  lemma DateVariantsAgree(s: ParserState, stamp: string)
    requires Tracked(s) && s.tag.None?
    ensures AfterData(s.(tag := Some("dhemi")), stamp).result
         == AfterData(s.(tag := Some("demi")), Prefix(stamp, 10)).result
  {
    var s1 := s.(tag := Some("dhemi"));
    var s2 := s.(tag := Some("demi"));
    assert Prefix(Prefix(stamp, 10), 10) == Prefix(stamp, 10);
    LeafTagsAlike(s1, s2, ["infnfe"]);
    LeafTagsAlike(s1, s2, ["ide"]);
    if Within(s1, ["infnfe"]) && !Within(s1, ["ide"]) {
      DateOutsideIdeIgnored(s1, stamp);
      DateOutsideIdeIgnored(s2, Prefix(stamp, 10));
    }
  }

  /** Whether sections are open around the current tag does not depend on which leaf tag
      is current. */
  lemma LeafTagsAlike(s1: ParserState, s2: ParserState, tags: seq<string>)
    requires Tracked(s1) && s2.track == s1.track
    requires s1.tag.Some? && s1.tag.value !in Sections && s2.tag.Some? && s2.tag.value !in Sections
    requires forall i :: 0 <= i < |tags| ==> tags[i] in Sections
    ensures Within(s1, tags) == Within(s2, tags)
  {
  }

  /** A date leaf outside the identification captures nothing. */
  lemma DateOutsideIdeIgnored(s: ParserState, d: string)
    requires Tracked(s) && (s.tag == Some("dhemi") || s.tag == Some("demi"))
    requires Within(s, ["infnfe"]) && !Within(s, ["ide"])
    ensures AfterData(s, d).result == s.result
  {
  }

  /** The mutable parser. */
  class InvoiceParser {
    var track: map<string, bool>
    var tag: Option<string>
    var result: map<string, string>

    function State(): ParserState
      reads this
    {
      ParserState(track, tag, result)
    }

    predicate Valid()
      reads this
    {
      Tracked(State())
    }

    /** Construction runs `reset()`. */
    constructor ()
      ensures Valid() && State() == InitialState()
    {
      track := map k | k in Sections :: false;
      tag := None;
      result := map[];
    }

    method Reset()
      modifies this
      ensures Valid() && State() == InitialState()
    {
      result := map[];
      track := map k | k in Sections :: false;
      tag := None;
    }

    method HandleStartTag(t: string)
      requires Valid()
      modifies this
      ensures Valid() && State() == AfterStart(old(State()), t)
    {
      tag := Some(t);
      if t in track {
        track := track[t := true];
      }
    }

    method HandleEndTag(t: string)
      requires Valid()
      modifies this
      ensures Valid() && State() == AfterEnd(old(State()), t)
    {
      tag := None;
      if t in track {
        track := track[t := false];
      }
    }

    method IsPrev(tags: seq<string>) returns (b: bool)
      requires forall i :: 0 <= i < |tags| ==> tags[i] in track
      ensures b == Within(State(), tags)
    {
      for i := 0 to |tags|
        invariant forall j :: 0 <= j < i ==> tag != Some(tags[j]) && track[tags[j]]
      {
        if Some(tags[i]) == tag || !track[tags[i]] {
          return false;
        }
      }
      return true;
    }

    method Free(tags: seq<string>, ifHas: seq<string>)
      modifies this
      ensures State() == AfterFree(old(State()), tags, ifHas)
    {
      for i := 0 to |ifHas|
        invariant State() == old(State())
        invariant forall j :: 0 <= j < i ==> ifHas[j] in result
      {
        if ifHas[i] !in result {
          return;
        }
      }
      for i := 0 to |tags|
        invariant tag == old(tag) && result == old(result)
        invariant Close(track, tags[i..]) == Close(old(track), tags)
      {
        assert tags[i..][1..] == tags[i + 1..];
        track := track[tags[i] := false];
      }
    }

    method HandleData(data: string)
      requires Valid()
      modifies this
      ensures Valid() && State() == AfterData(old(State()), data)
    {
      var t := tag;
      var inInfNFe := IsPrev(["infnfe"]);
      if inInfNFe {
        var inIde := IsPrev(["ide"]);
        if inIde {
          if t == Some("nnf") {
            result := result["number" := data];
          } else if t == Some("dhemi") {
            result := result["date" := Prefix(data, 10)];
          } else if t == Some("demi") {
            result := result["date" := data];
          }
          Free(["ide"], ["number", "date"]);
        } else {
          var inDest := IsPrev(["dest"]);
          if inDest {
            if t == Some("xnome") {
              result := result["customer" := data];
              Free(["dest"], []);
            }
          } else {
            var inProduct := IsPrev(["det", "prod"]);
            if inProduct {
              if t == Some("cfop") {
                result := result["operation" := data];
                Free(["det", "prod"], []);
              }
            } else {
              var inTotals := IsPrev(["total", "icmstot"]);
              if inTotals {
                if t == Some("vnf") {
                  result := result["total" := data];
                } else if t == Some("vicms") {
                  result := result["tax" := data];
                }
                Free(["total", "icmstot"], ["total", "tax"]);
              }
            }
          }
        }
      }
    }

    /** `feed`, over the events the tokenizer reports. */
    method Feed(events: seq<Event>)
      requires Valid()
      modifies this
      ensures Valid() && State() == AfterEvents(old(State()), events)
    {
      for i := 0 to |events|
        invariant Valid()
        invariant AfterEvents(State(), events[i..]) == AfterEvents(old(State()), events)
      {
        assert events[i..][1..] == events[i + 1..];
        match events[i]
        case Start(t) => HandleStartTag(t);
        case End(t) => HandleEndTag(t);
        case Data(d) => HandleData(d);
      }
    }

    /** `InvoiceParser.parse`: a fresh parser fed the whole document. */
    static method Parse(events: seq<Event>) returns (r: Result<ParsedInvoice, ParseError>)
      ensures r == ParseEvents(events)
    {
      var parser := new InvoiceParser();
      parser.Feed(events);
      var res := parser.result;
      if "number" !in res { return Failure(MissingField("number")); }
      if "date" !in res { return Failure(MissingField("date")); }
      if "customer" !in res { return Failure(MissingField("customer")); }
      if "operation" !in res { return Failure(MissingField("operation")); }
      if "total" !in res { return Failure(MissingField("total")); }
      if "tax" !in res { return Failure(MissingField("tax")); }
      r := Success(ParsedInvoice(res["number"], Prefix(res["date"], 10), res["customer"],
                                 res["operation"], res["total"], res["tax"]));
    }
  }
}
