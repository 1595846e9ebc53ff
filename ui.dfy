/** The status badge shown for a job in the jobs table. */
module Ui {
  import opened PyValues
  import PyText
  import Api

  /** The badge of a job without a status. */
  const UnknownBadge: string := "⚪️ Unknown"

  /** What an unrecognised status is shown after. */
  const FallbackMark: string := "🔘 "

  /** The badge of every recognised status, by its lower-cased text. */
  const BadgeTable: map<string, string> := map[
    "queued" := "🟡 Queued",
    "in_progress" := "🟡 In progress",
    "processing" := "🟡 Processing",
    "pending" := "🟡 Pending",
    "succeeded" := "✅ Succeeded",
    "completed" := "✅ Completed",
    "complete" := "✅ Completed",
    "failed" := "🔴 Failed",
    "canceled" := "⚪️ Canceled",
    "cancelled" := "⚪️ Canceled"
  ]

  /** `job_status_badge(status_value)`: "⚪️ Unknown" for a falsy status;
      otherwise the table entry of `str(status_value).lower()`, or the
      status as given after "🔘 ". */
  function JobStatusBadge(status: Value): (r: string)
    ensures !Truthy(status) ==> r == UnknownBadge
  {
    if !Truthy(status) then UnknownBadge
    else
      var normalized := PyText.Lower(PyStr(status));
      if normalized in BadgeTable then BadgeTable[normalized] else FallbackMark + PyStr(status)
  }

  /** The lookup ignores letter case: two spellings of a recognised status
      that differ only in case get the same badge, the table's. */
  lemma {:induction false} BadgeIgnoresCase(a: string, b: string)
    requires PyText.Lower(a) == PyText.Lower(b)
    requires PyText.Lower(a) in BadgeTable
    ensures JobStatusBadge(Str(a)) == JobStatusBadge(Str(b)) == BadgeTable[PyText.Lower(a)]
  {
    PyText.LowerAt(a);
    PyText.LowerAt(b);
  }

  /** A table key, written in lower case, gets its table badge. */
  lemma {:induction false} KeyBadge(key: string)
    requires key in BadgeTable
    requires forall i :: 0 <= i < |key| ==> !('A' <= key[i] <= 'Z')
    ensures JobStatusBadge(Str(key)) == BadgeTable[key]
  {
    PyText.LowerOfLowercase(key);
  }

  /** The alias spellings of a finished job, in any letter case, share the
      badge "✅ Completed". */
  lemma {:induction false} CompletedAliases(a: string, b: string)
    requires PyText.Lower(a) in {"completed", "complete"}
    requires PyText.Lower(b) in {"completed", "complete"}
    ensures JobStatusBadge(Str(a)) == JobStatusBadge(Str(b)) == "✅ Completed"
  {
    PyText.LowerAt(a);
    PyText.LowerAt(b);
  }

  /** The two spellings of a cancelled job, in any letter case, share the
      badge "⚪️ Canceled". */
  lemma {:induction false} CanceledAliases(a: string, b: string)
    requires PyText.Lower(a) in {"canceled", "cancelled"}
    requires PyText.Lower(b) in {"canceled", "cancelled"}
    ensures JobStatusBadge(Str(a)) == JobStatusBadge(Str(b)) == "⚪️ Canceled"
  {
    PyText.LowerAt(a);
    PyText.LowerAt(b);
  }

  /** An unrecognised status is shown as given, in its own letter case, and
      its badge is none of the table's. */
  lemma {:induction false} UnknownStatusPassesThrough(s: string)
    requires s != "" && PyText.Lower(s) !in BadgeTable
    ensures JobStatusBadge(Str(s)) == FallbackMark + s
    ensures JobStatusBadge(Str(s)) !in BadgeTable.Values
  {
    var r := JobStatusBadge(Str(s));
    assert r[0] == '🔘';
    forall k | k in BadgeTable ensures BadgeTable[k][0] != '🔘' {
    }
  }

  /** A falsy status never reads as a success status once stringified and
      lower-cased. */
  lemma {:induction false} FalsyIsNotSuccess(v: Value)
    requires !Truthy(v)
    ensures PyText.Lower(PyStr(v)) !in Api.SuccessStatuses
  {
    var t := PyStr(v);
    PyText.LowerAt(t);
    if t != "" {
      // Every falsy value other than "" prints as "None", "False", "0" or an
      // object text, none of which starts with 's' or 'c' in lower case.
      assert t[0] in {'N', 'F', '0', '<'};
      assert PyText.Lower(t)[0] !in {'s', 'c'};
    }
  }

  /** A success status was sent, and it is truthy. */
  lemma {:induction false} SuccessStatusPresent(job: Dict)
    requires Api.IsSuccess(job)
    ensures "status" in job && Truthy(job["status"])
    ensures PyText.Lower(PyStr(job["status"])) in Api.SuccessStatuses
  {
    if "status" !in job {
      assert false;
    }
    if !Truthy(job["status"]) {
      FalsyIsNotSuccess(job["status"]);
      assert false;
    }
  }

  /** Each success status has a green table entry. */
  lemma {:induction false} SuccessKeysGreen(key: string)
    requires key in Api.SuccessStatuses
    ensures key in BadgeTable && BadgeTable[key] in {"✅ Succeeded", "✅ Completed"}
  {
  }

  /** Every job the poller would return as finished shows a green badge. */
  lemma {:induction false} SuccessBadge(job: Dict)
    requires Api.IsSuccess(job)
    ensures JobStatusBadge(Get(job, "status")) in {"✅ Succeeded", "✅ Completed"}
  {
    SuccessStatusPresent(job);
    var key := PyText.Lower(PyStr(job["status"]));
    SuccessKeysGreen(key);
  }
}
