/**
 * The `/submissions` endpoint: each submission is compared with the results
 * last submitted for the same user and car, and then replaces them in an
 * in-memory store that lives as long as the server process.
 */
module Submissions {
  import opened Report

  datatype Submission = Submission(userId: string, carModel: string,
                                   photoIds: seq<string>, analysisResults: seq<Item>)

  datatype SubmissionResponse = SubmissionResponse(status: string, submissionId: int,
                                                   comparisonReport: string)

  const FirstInspectionMessage := "First inspection recorded. " + "No prior history to compare."
  const SubmissionId := 12345

  /** The store key of a submission: user id and car model joined by an underscore. */
  function StoreKey(s: Submission): (key: string)
    ensures |key| == |s.userId| + 1 + |s.carModel|
    ensures key[..|s.userId|] == s.userId && key[|s.userId|] == '_'
    ensures key[|s.userId| + 1..] == s.carModel
  {
    s.userId + "_" + s.carModel
  }

  /**
   * The comparison text a submission gets against the store as it was: a
   * comparison report when earlier results are stored under its key and are not
   * an empty list (Python treats `[]` as false), the first-inspection message
   * otherwise.
   */
  function ComparisonFor(entries: map<string, seq<Item>>, sub: Submission,
                         compare: (string, string) -> string): string
  {
    var key := StoreKey(sub);
    if key in entries && entries[key] != [] then
      GenerateComparisonReport(entries[key], sub.analysisResults, compare)
    else
      FirstInspectionMessage
  }

  /** The process-wide store of the last analysis results per key. */
  class SubmissionStore {
    var entries: map<string, seq<Item>>

    /** The store starts empty when the first submission arrives. */
    constructor ()
      ensures entries == map[]
    {
      entries := map[];
    }

    /** `submit_inspection`: compare with the stored results, then overwrite them. */
    method Submit(sub: Submission, compare: (string, string) -> string)
      returns (resp: SubmissionResponse)
      modifies this
      ensures entries == old(entries)[StoreKey(sub) := sub.analysisResults]
      ensures resp.status == "success" && resp.submissionId == 12345
      ensures resp.comparisonReport == ComparisonFor(old(entries), sub, compare)
    {
      var key := sub.userId + "_" + sub.carModel;
      var oldData := if key in entries then entries[key] else [];
      var comparisonText := "See new report details.";
      if oldData != [] {
        comparisonText := GenerateComparisonReport(oldData, sub.analysisResults, compare);
      } else {
        comparisonText := FirstInspectionMessage;
      }
      entries := entries[key := sub.analysisResults];
      resp := SubmissionResponse("success", SubmissionId, comparisonText);
    }
  }

  /**
   * A submission gets a comparison report (text under the comparison header)
   * exactly when non-empty results are stored under its key; otherwise it gets
   * the first-inspection message.
   */
  lemma ComparisonIffHistory(entries: map<string, seq<Item>>, sub: Submission,
                             compare: (string, string) -> string)
    ensures var key := StoreKey(sub);
      (key in entries && entries[key] != []) <==> ComparisonHeader <= ComparisonFor(entries, sub, compare)
    ensures var key := StoreKey(sub);
      !(key in entries && entries[key] != []) <==>
        ComparisonFor(entries, sub, compare) == FirstInspectionMessage
  {
    assert FirstInspectionMessage[0] == 'F';
    assert ComparisonHeader[0] == 'C';
    var key := StoreKey(sub);
    if key in entries && entries[key] != [] {
      var r := GenerateComparisonReport(entries[key], sub.analysisResults, compare);
      assert r[0] == ComparisonHeader[0];
    }
  }

  /**
   * Submitting again, under the same key, results that render alike gives the
   * fixed "no changes" report, provided the differ finds nothing between a text
   * and itself.
   */
  lemma ResubmissionReportsNoChanges(entries: map<string, seq<Item>>, first: Submission,
                                     second: Submission, compare: (string, string) -> string)
    requires QuietOnEqual(compare)
    requires StoreKey(first) == StoreKey(second)
    requires first.analysisResults != []
    requires second.analysisResults == first.analysisResults
    ensures ComparisonFor(entries[StoreKey(first) := first.analysisResults], second, compare)
      == ComparisonHeader + NoChangesMessage
  {
    var rs := first.analysisResults;
    NoChangesForSameRendering(rs, rs, compare);
  }

  /**
   * The key does not tell user and car apart: user "a_b" with car "c" and user
   * "a" with car "b_c" share one history.
   */
  lemma StoreKeyCollides()
    ensures exists s1: Submission, s2: Submission ::
      (s1.userId, s1.carModel) != (s2.userId, s2.carModel) && StoreKey(s1) == StoreKey(s2)
  {
    var s1 := Submission("a_b", "c", [], []);
    var s2 := Submission("a", "b_c", [], []);
    assert StoreKey(s1) == "a_b_c" == StoreKey(s2);
  }

  /** Two submissions with different keys do not see each other's results. */
  lemma OtherKeysUnaffected(entries: map<string, seq<Item>>, sub: Submission, other: Submission,
                            compare: (string, string) -> string)
    requires StoreKey(other) != StoreKey(sub)
    ensures ComparisonFor(entries[StoreKey(sub) := sub.analysisResults], other, compare)
      == ComparisonFor(entries, other, compare)
  {
  }
}
