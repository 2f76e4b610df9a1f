/** When a record that start_resolution builds can be stored (lifecycle.py, repository_contract.py). */
module Starting {
  import opened Models
  import opened Outcomes
  import opened Records
  import Lifecycle
  import opened Contract

  lemma {:induction false} StrippedLeft(s: string)
    ensures StripLeft(s) == "" || !IsSpace(StripLeft(s)[0])
  {
    if s != [] && IsSpace(s[0]) {
      StrippedLeft(s[1..]);
    }
  }

  lemma {:induction false} StrippedRight(s: string)
    ensures s != "" && !IsSpace(s[0]) ==> StripRight(s) != "" && StripRight(s)[0] == s[0]
  {
    if s != [] && IsSpace(s[|s| - 1]) {
      StrippedRight(s[..|s| - 1]);
    }
  }

  lemma StrippedIsNotBlank(s: string)
    ensures Strip(s) != "" ==> !IsBlank(Strip(s))
  {
    StrippedLeft(s);
    StrippedRight(StripLeft(s));
  }

  /** What start_resolution builds can be stored exactly if its identifier and mode say something and time does not run back. */
  lemma StartedRecordsAreValidExactly(owner: string, intent: string, mode: string, i: Lifecycle.Interpretation,
                                      id: string, requestedAt: int, offeredAt: int)
    requires Lifecycle.StartResolution(owner, intent, mode, i, id, requestedAt, offeredAt).Ok?
    ensures IsValidNew(Lifecycle.StartResolution(owner, intent, mode, i, id, requestedAt, offeredAt).value)
            <==> !IsBlank(id) && !IsBlank(mode) && requestedAt <= offeredAt
  {
    hide Strip, IsBlank, DeadlineFor;
    StrippedIsNotBlank(intent);
    var r := Lifecycle.StartResolution(owner, intent, mode, i, id, requestedAt, offeredAt).value;
    var h := r.history;
    HistoryPlusOne([], h[0]);
    HistoryPlusOne([h[0]], h[1]);
    assert h == ([] + [h[0]]) + [h[1]];
    assert IsBound(r) && HasValidSchedule(r) && HasValidHistory(r) <==> requestedAt <= offeredAt;
    assert HasValidPhase(r);
  }
}
