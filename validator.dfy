/** `_RegRuClient._is_success_response`: the check that a decoded Reg.ru
    reply reports success for the one domain a request names. */
module ResponseValidator {
  import opened JsonValues

  const ResultKey := "result"
  const AnswerKey := "answer"
  const SuccessValue := JStr("success")

  /** The chain of shape and value guards, in the order the plugin applies
      them. It is total: every JSON value gets a verdict. */
  predicate IsSuccessResponse(response: Json): (ok: bool)
    ensures ok ==> response.JObj? && Field(response, ResultKey) == SuccessValue
    ensures ok ==> Field(response, AnswerKey).JObj?
  {
    if !response.JObj? then false
    else if Get(response.fields, ResultKey) != SuccessValue then false
    else
      var answer := Get(response.fields, AnswerKey);
      if !answer.JObj? then false
      else
        var domains := Get(answer.fields, DomainsKey);
        if !domains.JArr? || |domains.items| == 0 then false
        else
          var first := domains.items[0];
          if !first.JObj? then false
          else Get(first.fields, ResultKey) == SuccessValue
  }

  /** The success envelope, built from arbitrary other fields: the top-level
      object, the `answer` object, the first `domains` entry and the entries
      after it. */
  function SuccessEnvelope(top: map<string, Json>, answer: map<string, Json>,
                           first: map<string, Json>, rest: seq<Json>): Json
  {
    var domains := [JObj(first[ResultKey := SuccessValue])] + rest;
    JObj(top[ResultKey := SuccessValue][AnswerKey := JObj(answer[DomainsKey := JArr(domains)])])
  }

  /** Every value of the success envelope's shape is accepted, whatever the
      other fields and the later `domains` entries hold. */
  lemma EnvelopeIsSuccess(top: map<string, Json>, answer: map<string, Json>,
                          first: map<string, Json>, rest: seq<Json>)
    ensures IsSuccessResponse(SuccessEnvelope(top, answer, first, rest))
  {
  }

  /** Conversely, every accepted value is a success envelope: it is the
      envelope of its own fields. Together with EnvelopeIsSuccess this
      characterises the accepted values exactly. */
  lemma SuccessIsEnvelope(response: Json)
    requires IsSuccessResponse(response)
    ensures response.JObj? && response.fields[AnswerKey].JObj?
    ensures var answer := response.fields[AnswerKey].fields;
      && answer[DomainsKey].JArr? && |answer[DomainsKey].items| >= 1
      && answer[DomainsKey].items[0].JObj?
      && response == SuccessEnvelope(response.fields, answer,
                                     answer[DomainsKey].items[0].fields,
                                     answer[DomainsKey].items[1..])
  {
    var top := response.fields;
    var answer := top[AnswerKey].fields;
    var items := answer[DomainsKey].items;
    var first := items[0].fields;
    assert first[ResultKey := SuccessValue] == first;
    assert [JObj(first)] + items[1..] == items;
    assert answer[DomainsKey := JArr(items)] == answer;
    assert top[ResultKey := SuccessValue] == top;
    assert top[AnswerKey := JObj(answer)] == top;
  }

  /** `value.get(key)` when `value` is an object; `None` otherwise. */
  function Field(value: Json, key: string): Json
  {
    if value.JObj? then Get(value.fields, key) else JNull
  }

  /** Each guard rejects on its own: a value that is not an object, a
      top-level `result` other than "success" (missing included), an `answer`
      that is not an object, `domains` that is not a non-empty list, a first
      entry that is not an object, and a first entry whose `result` is not
      "success". */
  lemma RejectedShapes(response: Json)
    ensures !response.JObj? ==> !IsSuccessResponse(response)
    ensures Field(response, ResultKey) != SuccessValue ==> !IsSuccessResponse(response)
    ensures !Field(response, AnswerKey).JObj? ==> !IsSuccessResponse(response)
    ensures var domains := Field(Field(response, AnswerKey), DomainsKey);
      (!domains.JArr? || domains.items == []) ==> !IsSuccessResponse(response)
    ensures var domains := Field(Field(response, AnswerKey), DomainsKey);
      (domains.JArr? && domains.items != [] && !domains.items[0].JObj?) ==> !IsSuccessResponse(response)
    ensures var domains := Field(Field(response, AnswerKey), DomainsKey);
      (domains.JArr? && domains.items != [] && Field(domains.items[0], ResultKey) != SuccessValue)
      ==> !IsSuccessResponse(response)
  {
  }

  /** A response whose `answer.domains` list has been replaced by `items`. */
  function WithDomains(top: map<string, Json>, answer: map<string, Json>, items: seq<Json>): Json
  {
    JObj(top[AnswerKey := JObj(answer[DomainsKey := JArr(items)])])
  }

  /** Only the first `domains` entry is inspected: two lists that agree on it
      get the same verdict. */
  lemma OnlyFirstDomainMatters(top: map<string, Json>, answer: map<string, Json>,
                               items1: seq<Json>, items2: seq<Json>)
    requires |items1| >= 1 && |items2| >= 1 && items1[0] == items2[0]
    ensures IsSuccessResponse(WithDomains(top, answer, items1))
        <==> IsSuccessResponse(WithDomains(top, answer, items2))
  {
  }

  /** Replies that carry an error, or that stop short of the per-domain
      result, are rejected. */
  lemma RejectedExamples()
    ensures !IsSuccessResponse(JNull)
    ensures !IsSuccessResponse(JArr([]))
    ensures !IsSuccessResponse(JObj(map[ResultKey := JStr("error")]))
    ensures !IsSuccessResponse(JObj(map[ResultKey := SuccessValue]))
    ensures !IsSuccessResponse(JObj(map[ResultKey := SuccessValue,
                                        AnswerKey := JObj(map[DomainsKey := JArr([])])]))
  {
  }
}
