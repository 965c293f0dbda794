/** `parseErrorFromPangea` of `packages/react-mui-store-file-viewer`: the text shown for a failed store request. */
module StoreUtils {
  import opened Js

  /**
    `"{status}: {summary}"` of the reply body when either is truthy, and
    otherwise the error's own string form. Reading `error.response` throws
    on a nullish error.
   */
  function ParseErrorFromPangea(error: Value): (r: Completion<string>)
    ensures r.Throw? <==> IsNullish(error)
  {
    var errorResponse :- Member(error, "response");
    var response := Coalesce(errorResponse, Obj(map[]));
    if !Truthy(response) then
      Normal(ToString(error))
    else
      var status := Prop(Prop(response, "data"), "status");
      var summary := Prop(Prop(response, "data"), "summary");
      if Truthy(status) || Truthy(summary) then Normal(ToString(status) + ": " + ToString(summary))
      else Normal(ToString(error))
  }

  /** `error.response?.data?.status` */
  function BodyStatus(error: Value): Value {
    Prop(Prop(Prop(error, "response"), "data"), "status")
  }

  /** `error.response?.data?.summary` */
  function BodySummary(error: Value): Value {
    Prop(Prop(Prop(error, "response"), "data"), "summary")
  }

  /**
    The whole behaviour without the `!response` test: that test is passed
    only by a falsy `error.response` (`false`, `0`, `""`), which has no
    `data` property either and so reaches the same `${error}`.
   */
  lemma ParseErrorCases(error: Value)
    ensures IsNullish(error) <==> ParseErrorFromPangea(error).Throw?
    ensures !IsNullish(error) && (Truthy(BodyStatus(error)) || Truthy(BodySummary(error))) ==>
      ParseErrorFromPangea(error) == Normal(ToString(BodyStatus(error)) + ": " + ToString(BodySummary(error)))
    ensures !IsNullish(error) && !Truthy(BodyStatus(error)) && !Truthy(BodySummary(error)) ==>
      ParseErrorFromPangea(error) == Normal(ToString(error))
  {
    if !IsNullish(error) {
      var response := Prop(error, "response");
      if !Truthy(response) {
        assert Prop(response, "data") == Undefined;
      }
    }
  }

  /** A missing or falsy `error.response` always yields the error's own string form. */
  lemma NoResponseGivesErrorText(error: Value)
    requires !IsNullish(error) && !Truthy(Prop(error, "response"))
    ensures ParseErrorFromPangea(error) == Normal(ToString(error))
  {
    ParseErrorCases(error);
  }

  /** With only one of status and summary, the other is rendered as the text "undefined". */
  lemma MissingPartRendersUndefined(error: Value)
    requires !IsNullish(error)
    ensures Truthy(BodyStatus(error)) && BodySummary(error) == Undefined ==>
      ParseErrorFromPangea(error) == Normal(ToString(BodyStatus(error)) + ": undefined")
    ensures BodyStatus(error) == Undefined && Truthy(BodySummary(error)) ==>
      ParseErrorFromPangea(error) == Normal("undefined: " + ToString(BodySummary(error)))
  {
    ParseErrorCases(error);
    assert ToString(Undefined) == "undefined";
    var status, summary := ToString(BodyStatus(error)), ToString(BodySummary(error));
    assert status + ": " + "undefined" == status + ": undefined";
    assert "undefined" + ": " + summary == "undefined: " + summary;
  }
}
