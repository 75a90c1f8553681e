/** The request builder of the Reg.ru client (`_RegRuClient.__init__` options
    and `_RegRuClient._create_params`): it splits a record name into zone and
    subdomain and builds the POST parameters. */
module RequestBuilder {
  import opened JsonValues
  import opened DomainLabels

  /** The two parts the Reg.ru API wants for a record name. */
  datatype NameParts = NameParts(subdomain: string, zone: string)

  /** `'.'.join(pieces[:-2])` and `'.'.join(pieces[-2:])`. Python clamps the
      negative slice bound at 0, so with fewer than two pieces everything
      goes to the zone. */
  function CutLabels(pieces: seq<string>): (parts: NameParts)
    ensures |pieces| <= 2 ==> parts.subdomain == ""
  {
    var cut := if |pieces| >= 2 then |pieces| - 2 else 0;
    NameParts(Join(pieces[..cut]), Join(pieces[cut..]))
  }

  /** `pieces = name.split('.')`, then the cut before the last two labels. */
  function SplitRecordName(name: string): (parts: NameParts)
    ensures |Split(name)| <= 2 ==> parts.subdomain == ""
  {
    CutLabels(Split(name))
  }

  /** With three or more labels the subdomain, a dot and the zone spell the
      name again; with two or fewer (one included) the subdomain is empty and
      the zone is the whole name. */
  lemma RecordNameRoundTrip(name: string)
    ensures var parts := SplitRecordName(name);
      if |Split(name)| >= 3 then parts.subdomain + [Dot] + parts.zone == name
      else parts.subdomain == "" && parts.zone == name
  {
    var pieces := Split(name);
    JoinSplit(name);
    if |pieces| >= 3 {
      var cut := |pieces| - 2;
      assert pieces == pieces[..cut] + pieces[cut..];
      JoinAppend(pieces[..cut], pieces[cut..]);
    } else {
      assert pieces[0..] == pieces;
    }
  }

  /** Both sides of the cut before the last two labels split back into
      their labels. */
  lemma PartsSplitBack(labels: seq<string>)
    requires |labels| >= 2 && NoDots(labels)
    ensures Split(Join(labels[|labels| - 2..])) == labels[|labels| - 2..]
    ensures |labels| >= 3 ==> Split(Join(labels[..|labels| - 2])) == labels[..|labels| - 2]
  {
    var cut := |labels| - 2;
    assert NoDots(labels[cut..]);
    SplitJoin(labels[cut..]);
    if |labels| >= 3 {
      assert NoDots(labels[..cut]);
      SplitJoin(labels[..cut]);
    }
  }

  /** Both sides of the cut split back into their labels: the zone into the
      last two, the subdomain (with three or more) into all the others. */
  lemma CutLabelsSplitBack(pieces: seq<string>)
    requires |pieces| >= 2 && NoDots(pieces)
    ensures Split(CutLabels(pieces).zone) == pieces[|pieces| - 2..]
    ensures |pieces| >= 3 ==> Split(CutLabels(pieces).subdomain) == pieces[..|pieces| - 2]
  {
    var cut := |pieces| - 2;
    assert CutLabels(pieces) == NameParts(Join(pieces[..cut]), Join(pieces[cut..]));
    PartsSplitBack(pieces);
  }

  /** The zone is made of the last two labels of the name and the subdomain
      of all the labels before them. */
  lemma ZoneIsLastTwoLabels(name: string)
    requires |Split(name)| >= 2
    ensures Split(SplitRecordName(name).zone) == Split(name)[|Split(name)| - 2..]
    ensures |Split(name)| >= 3 ==> Split(SplitRecordName(name).subdomain) == Split(name)[..|Split(name)| - 2]
    ensures |Split(name)| == 2 ==> SplitRecordName(name).subdomain == ""
  {
    CutLabelsSplitBack(Split(name));
  }

  /** A name spelled from dot-free labels splits at its last two labels. */
  lemma SplitJoinedName(labels: seq<string>)
    requires |labels| >= 2 && NoDots(labels)
    ensures SplitRecordName(Join(labels))
         == NameParts(Join(labels[..|labels| - 2]), Join(labels[|labels| - 2..]))
  {
    SplitJoin(labels);
  }

  /** The subdomain record of the live tests: `_acme-challenge`, the default
      subdomain label `sub` and a base domain such as `example.com`. The name
      is a parameter equal to the literal, so that the verifier does not
      unfold Split over the literal character by character. */
  lemma SubdomainExample(name: string)
    requires name == "_acme-challenge.sub.example.com"
    ensures SplitRecordName(name) == NameParts("_acme-challenge.sub", "example.com")
  {
    var labels := ["_acme-challenge", "sub", "example", "com"];
    assert labels[2..] == ["example", "com"];
    assert labels[1..] == ["sub", "example", "com"];
    assert Join(labels[2..]) == "example.com";
    assert Join(labels[1..]) == "sub.example.com";
    assert Join(labels) == name;
    SplitJoinedName(labels);
    assert labels[..2] == ["_acme-challenge", "sub"];
    assert Join(labels[..2]) == "_acme-challenge.sub";
  }

  /** Keys of the form-encoded POST body. */
  const UsernameKey := "username"
  const PasswordKey := "password"
  const IoEncodingKey := "io_encoding"
  const ShowInputParamsKey := "show_input_params"
  const OutputFormatKey := "output_format"
  const InputFormatKey := "input_format"
  const InputDataKey := "input_data"

  /** Keys `_create_params` adds to the operation-specific fields. */
  const SubdomainKey := "subdomain"
  const DnameKey := "dname"

  /** The fixed account options the client is built with. */
  function AccountOptions(username: string, password: string): (options: map<string, Json>)
    ensures InputDataKey !in options
    ensures UsernameKey in options && options[UsernameKey] == JStr(username)
    ensures PasswordKey in options && options[PasswordKey] == JStr(password)
  {
    map[
      UsernameKey := JStr(username),
      PasswordKey := JStr(password),
      IoEncodingKey := JStr("utf8"),
      ShowInputParamsKey := JNum(1),
      OutputFormatKey := JStr("json"),
      InputFormatKey := JStr("json")
    ]
  }

  /** `input_data` after `_create_params` has set `subdomain` and `domains`
      on the caller's fields. The caller's other fields are kept; the zone
      goes into a one-element `domains` list. */
  function InputData(name: string, extra: map<string, Json>): (data: map<string, Json>)
    ensures data.Keys == extra.Keys + {SubdomainKey, DomainsKey}
    ensures forall k :: k in extra && k != SubdomainKey && k != DomainsKey ==> data[k] == extra[k]
    ensures data[SubdomainKey] == JStr(SplitRecordName(name).subdomain)
    ensures data[DomainsKey] == DomainsOf(SplitRecordName(name))
  {
    var parts := SplitRecordName(name);
    extra[SubdomainKey := JStr(parts.subdomain)][DomainsKey := DomainsOf(parts)]
  }

  /** `_create_params`: a copy of the options with `input_data` added. The
      options themselves are a value here, so they cannot change. */
  function CreateParams(options: map<string, Json>, name: string, extra: map<string, Json>): (data: map<string, Json>)
    ensures data.Keys == options.Keys + {InputDataKey}
    ensures forall k :: k in options && k != InputDataKey ==> data[k] == options[k]
    ensures data[InputDataKey].JObj? && data[InputDataKey].fields == InputData(name, extra)
  {
    options[InputDataKey := JObj(InputData(name, extra))]
  }

  /** The fields `add_txt_record` passes: the record's text. */
  function AddFields(content: string): (fields: map<string, Json>)
    ensures SubdomainKey !in fields && DomainsKey !in fields
    ensures "text" in fields && fields["text"] == JStr(content)
  {
    map["text" := JStr(content)]
  }

  /** The fields `del_txt_record` passes: type TXT and the content, so that
      only the record with this content is removed. */
  function DeleteFields(content: string): (fields: map<string, Json>)
    ensures SubdomainKey !in fields && DomainsKey !in fields
    ensures "record_type" in fields && fields["record_type"] == JStr("TXT")
    ensures "content" in fields && fields["content"] == JStr(content)
  {
    map["record_type" := JStr("TXT"), "content" := JStr(content)]
  }

  /** A name's parts as the API receives them in `input_data`. */
  function DomainsOf(parts: NameParts): Json
  {
    JArr([JObj(map[DnameKey := JStr(parts.zone)])])
  }

  /** Every request carries the six account options and `input_data`, and
      nothing else; the options keep their values. */
  lemma PayloadHasFixedOptions(username: string, password: string, name: string, extra: map<string, Json>)
    ensures var data := CreateParams(AccountOptions(username, password), name, extra);
      && data.Keys == {UsernameKey, PasswordKey, IoEncodingKey, ShowInputParamsKey,
                       OutputFormatKey, InputFormatKey, InputDataKey}
      && data[UsernameKey] == JStr(username)
      && data[PasswordKey] == JStr(password)
      && data[IoEncodingKey] == JStr("utf8")
      && data[ShowInputParamsKey] == JNum(1)
      && data[OutputFormatKey] == JStr("json")
      && data[InputFormatKey] == JStr("json")
  {
  }

  /** What an add request carries in `input_data`. */
  lemma AddInputData(name: string, content: string)
    ensures InputData(name, AddFields(content))
         == map["text" := JStr(content),
                SubdomainKey := JStr(SplitRecordName(name).subdomain),
                DomainsKey := DomainsOf(SplitRecordName(name))]
  {
  }

  /** What a delete request carries in `input_data`. */
  lemma DeleteInputData(name: string, content: string)
    ensures InputData(name, DeleteFields(content))
         == map["record_type" := JStr("TXT"), "content" := JStr(content),
                SubdomainKey := JStr(SplitRecordName(name).subdomain),
                DomainsKey := DomainsOf(SplitRecordName(name))]
  {
  }

  /** Adding a record for a two-label domain: `_acme-challenge` is the
      subdomain and the domain is the zone. As in SubdomainExample, the name
      is a parameter equal to the literal, to keep the proof cheap. */
  lemma AddRootExample(name: string)
    requires name == "_acme-challenge.example.com"
    ensures InputData(name, AddFields("abc123"))
         == map["text" := JStr("abc123"),
                SubdomainKey := JStr("_acme-challenge"),
                DomainsKey := JArr([JObj(map[DnameKey := JStr("example.com")])])]
  {
    var labels := ["_acme-challenge", "example", "com"];
    assert Join(labels) == name;
    SplitJoinedName(labels);
    assert labels[..1] == ["_acme-challenge"];
    assert labels[1..] == ["example", "com"];
    assert SplitRecordName(name) == NameParts("_acme-challenge", "example.com");
    AddInputData(name, "abc123");
  }
}
