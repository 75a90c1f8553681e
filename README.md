# Reg.ru DNS client for certbot: a verified model

The `certbot_regru` plugin answers ACME dns-01 challenges (section 8.4 of
RFC 8555) by creating and removing a TXT record through the Reg.ru HTTP API.
All of its own logic sits in `_RegRuClient`:

- the **request builder** (`_create_params`) splits the record name on dots,
  takes the last two labels as the zone (`dname`) and the rest as the
  `subdomain`, adds both to the operation's fields and attaches the result as
  `input_data` to a copy of the fixed account options;
- the **response validator** (`_is_success_response`) is a total predicate
  over the decoded JSON reply that accepts only
  `{result: "success", answer: {domains: [{result: "success", ...}, ...]}}`;
- the **record client** (`add_txt_record`, `del_txt_record`) runs builder,
  transport and validator in turn. Add raises `PluginError` on any failure;
  delete only logs a warning and always returns normally.

Files, one module each:

- `json.dfy` (`JsonValues`): the decoded JSON value and Python's `dict.get`.
- `labels.dfy` (`DomainLabels`): `str.split('.')` and `'.'.join`, with both
  round trips proved.
- `builder.dfy` (`RequestBuilder`): account options, record-name splitting,
  `input_data` and the POST parameters.
- `validator.dfy` (`ResponseValidator`): the success predicate and its exact
  characterisation.
- `client.dfy` (`RegRuClient`): the outcome datatypes, the HTTP transport as a
  class that records what it sent, and the client class with its two
  operations.

The network is not modelled. Each operation takes the network's answer as a
`Transport` parameter: either `TransportError(detail)` or `Delivered(json)`.
The transport object records every request handed to it, so the contracts
say which endpoint and which parameters each operation sends.

Behaviour worth knowing, as the code has it:

- A name is split by labels, whatever they are. `_acme-challenge.example.com`
  gives subdomain `_acme-challenge` and zone `example.com`.
  `_acme-challenge.sub.example.com` gives `_acme-challenge.sub` and
  `example.com`.
- A single-label name gives an empty subdomain, and the zone is that label,
  once. Python's `pieces[-2:]` on a one-element list is that list.
- `dict.get` answers `None` both for a missing key and for a JSON `null`. Both
  are `JNull` here.

## Model

| member | source | states |
|---|---|---|
| `DomainLabels.Split` | certbot_regru/dns.py:156 | splitting on `.` always gives at least one piece, and no piece contains a dot |
| `DomainLabels.Join` | certbot_regru/dns.py:158-159 | `'.'.join(labels)`: the labels with one dot between neighbours, `""` for no labels; JoinSplit and SplitJoin pin it down as the inverse of Split |
| `DomainLabels.JoinSplit` | certbot_regru/dns.py:156-159 | joining the split pieces with `.` gives back the original name, for every string |
| `DomainLabels.SplitJoin` | certbot_regru/dns.py:156-159 | splitting the join of one or more dot-free labels gives back those labels |
| `RequestBuilder.CutLabels` | certbot_regru/dns.py:158-159 | `'.'.join(pieces[:-2])` and `'.'.join(pieces[-2:])`, with Python's clamping of the negative bound; with two or fewer pieces the subdomain is empty; CutLabelsSplitBack shows each side splits back into its labels |
| `RequestBuilder.SplitRecordName` | certbot_regru/dns.py:156-159 | split the name on dots, then cut before the last two labels; with two or fewer labels the subdomain is empty; RecordNameRoundTrip and ZoneIsLastTwoLabels characterise it |
| `RequestBuilder.CutLabelsSplitBack` | certbot_regru/dns.py:158-159 | for two or more dot-free pieces, the zone splits back into the last two pieces and (with three or more) the subdomain into all the others |
| `RequestBuilder.RecordNameRoundTrip` | certbot_regru/dns.py:156-159 | with three or more labels, subdomain + "." + zone is the name; with two or fewer (one included), the subdomain is empty and the zone is the whole name |
| `RequestBuilder.ZoneIsLastTwoLabels` | certbot_regru/dns.py:156-159 | with two or more labels, the zone's labels are the name's last two, and with three or more the subdomain's labels are all the others; with exactly two the subdomain is empty |
| `RequestBuilder.SplitJoinedName` | certbot_regru/dns.py:156-159 | a name spelled from dot-free labels is cut before its last two labels |
| `RequestBuilder.SubdomainExample` | certbot_regru/dns.py:156-159 | `_acme-challenge.sub.example.com` gives subdomain `_acme-challenge.sub` and zone `example.com` |
| `RequestBuilder.AccountOptions` | certbot_regru/dns.py:88-95 | the six fixed options; they carry the given username and password and never hold `input_data`, so the parameters gain exactly one key (PayloadHasFixedOptions lists all seven) |
| `RequestBuilder.AddFields` | certbot_regru/dns.py:105 | the add operation's fields: `text` is the record content, and neither `subdomain` nor `domains` is among them, so the builder overwrites nothing of the caller's |
| `RequestBuilder.DeleteFields` | certbot_regru/dns.py:130-133 | the delete operation's fields: `record_type` is "TXT" and `content` is the record content, and neither `subdomain` nor `domains` is among them |
| `RequestBuilder.InputData` | certbot_regru/dns.py:158-159 | `input_data` keeps every caller field except `subdomain` and `domains`, adds exactly those two keys, sets `subdomain`, and sets `domains` to the one-element list `[{dname: zone}]` |
| `RequestBuilder.CreateParams` | certbot_regru/dns.py:161-164 | the parameters are the options with exactly one key added, `input_data`; every option keeps its value; `input_data` is the object built from the name and fields |
| `RequestBuilder.PayloadHasFixedOptions` | certbot_regru/dns.py:88-95 | a request made with the client's options has exactly seven keys: `username`, `password`, `io_encoding`="utf8", `show_input_params`=1, `output_format`="json", `input_format`="json" and `input_data` |
| `RequestBuilder.AddInputData` | certbot_regru/dns.py:105 | an add request's `input_data` is exactly `{text, subdomain, domains}` |
| `RequestBuilder.DeleteInputData` | certbot_regru/dns.py:130-133 | a delete request's `input_data` is exactly `{record_type: "TXT", content, subdomain, domains}` |
| `RequestBuilder.AddRootExample` | certbot_regru/dns.py:156-159 | adding `abc123` at `_acme-challenge.example.com` sends `{text: "abc123", subdomain: "_acme-challenge", domains: [{dname: "example.com"}]}` |
| `ResponseValidator.IsSuccessResponse` | certbot_regru/dns.py:166-190 | the six guards in order, total over every JSON value; an accepted reply is an object whose `result` is "success" and whose `answer` is an object; EnvelopeIsSuccess and SuccessIsEnvelope characterise it exactly |
| `ResponseValidator.EnvelopeIsSuccess` | certbot_regru/dns.py:172-190 | every reply of the success shape is accepted, whatever its other fields and later `domains` entries |
| `ResponseValidator.SuccessIsEnvelope` | certbot_regru/dns.py:172-190 | every accepted reply has the success shape: an object whose `answer` is an object with a non-empty `domains` list whose first entry is an object; with EnvelopeIsSuccess this is an exact iff |
| `ResponseValidator.RejectedShapes` | certbot_regru/dns.py:172-190 | each guard rejects on its own: non-object, `result` not "success" (or missing), `answer` not an object, `domains` not a non-empty list, first entry not an object, first entry's `result` not "success" |
| `ResponseValidator.OnlyFirstDomainMatters` | certbot_regru/dns.py:186-190 | two `domains` lists with the same first entry get the same verdict |
| `ResponseValidator.RejectedExamples` | certbot_regru/dns.py:172-184 | `null`, a top-level list, `{result: "error"}`, a reply without `answer` and one with empty `domains` are rejected |
| `RegRuClient.FailureOf` | certbot_regru/dns.py:107-116 | the failure a reply amounts to: none exactly when a reply was delivered and the validator accepts it; a transport error becomes a communication failure with its detail; otherwise the raw reply is rejected. It is also the warning `del_txt_record` logs |
| `RegRuClient.AddOutcome` | certbot_regru/dns.py:107-118 | add raises `PluginError` exactly when FailureOf reports a failure, and returns normally otherwise; AddFailsLoudly spells out the cause |
| `RegRuClient.AddFailsLoudly` | certbot_regru/dns.py:107-118 | add returns normally iff a reply was delivered and the validator accepts it; a transport error raises with its detail; a rejected reply raises with the reply |
| `RegRuClient.DeleteWarnsWhereAddRaises` | certbot_regru/dns.py:135-146 | delete logs a warning for exactly the failures add would raise, and none when add would succeed |
| `RegRuClient.HttpClient.constructor` | certbot_regru/dns.py:193-196 | a new transport has sent nothing |
| `RegRuClient.HttpClient.Send` | certbot_regru/dns.py:198-209 | one POST of the given parameters to the given URL is recorded, and the network's answer is returned unchanged |
| `RegRuClient.Client.constructor` | certbot_regru/dns.py:86-95 | the client's options are the six fixed account options, and its fresh transport has sent nothing |
| `RegRuClient.Client.AddTxtRecord` | certbot_regru/dns.py:97-118 | exactly one request goes to the add_txt endpoint, with the options and `{text: content}`; the outcome is `Ok` only for an accepted reply and `PluginError` with the cause otherwise |
| `RegRuClient.Client.DelTxtRecord` | certbot_regru/dns.py:120-146 | exactly one request goes to the remove_record endpoint, with the options and `{record_type: "TXT", content}`; the outcome is always `Ok`, and a warning names the failure, if any |
| `RegRuClient.AddThenDelete` | certbot_regru/dns.py:71-78 | perform and clean up through two clients built from the same credentials, one per hook: each transport sends exactly one request, both carry the same username and password, an accepted add returns normally, and a delete whose connection fails still returns normally, with a warning |

## Left out

- `Authenticator` (certbot_regru/dns.py:38-78): plugin registration, argument parsing and credential files belong to certbot, which is not part of this model. Only its two hooks are shown, by `AddThenDelete`: each builds a fresh client from the same credentials.
- The HTTP call itself (`requests.post`, `raise_for_status`, `.json()`): the network's answer is a parameter. A 4xx or 5xx status (what `raise_for_status` rejects) and a connection error are `TransportError`; a final 1xx or 3xx reply goes on to `.json()` and, if its body is JSON, is `Delivered` and judged by the validator. A body that is not JSON is one too with requests 2.27 or later, where `.json()` raises a `RequestException`; with older requests a plain `ValueError` escapes both operations, and the model does not capture that.
- The JSON text of `input_data` (`json.dumps`): the parameter holds the JSON object it encodes.
- Logging: debug and error lines are not modelled. The delete operation's warning is returned as a value, because it is the only trace a failed delete leaves.
- RegRuClient.Client.AddTxtRecord: the raised error carries its cause (the transport detail or the raw reply), not the formatted message text, because rendering a reply with Python's `str` is library formatting.
- `_create_params` sets `subdomain` and `domains` on the caller's dict in place. Both callers pass a dict literal they never use again, so the model builds a new map.
- JSON numbers are integers and objects are maps: floating point and duplicate keys play no part in the checks the plugin makes.
