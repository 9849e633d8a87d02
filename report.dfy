/** The report formatter: a dictionary read with defaults into a fixed
    three-field record, and that record written out as a JSON object whose
    members come in a fixed order. */
module Report {
  import opened Values

  /** The report's fields. Whatever the dictionary held is kept as it is:
      nothing checks the range of the score or the type of either list. */
  datatype AnalysisReport = AnalysisReport(matchScore: Json, skillGaps: Json, recommendations: Json)

  /** A JSON object as written: its members in order. */
  type Members = seq<(string, Json)>

  /** The member names of the written report, in order. */
  const ReportKeys: seq<string> := ["match_score", "skill_gaps", "recommendations"]

  /** The value a field takes when the dictionary lacks its key. */
  function DefaultFor(key: string): Json
  {
    if key == "match_score" then JNumber(0) else JArray([])
  }

  /** `dict.get(key, default)`. */
  function Get(data: Dict, key: string, default: Json): Json
  {
    if key in data then data[key] else default
  }

  /** `AnalysisReport.__init__`; the input must be a dict (None raises).
      Each field is the input's value under the field's key, or that key's
      default when the input lacks it. */
  function FromAnalysis(data: Dict): (r: AnalysisReport)
    ensures "match_score" in data ==> r.matchScore == data["match_score"]
    ensures "match_score" !in data ==> r.matchScore == DefaultFor("match_score")
    ensures "skill_gaps" in data ==> r.skillGaps == data["skill_gaps"]
    ensures "skill_gaps" !in data ==> r.skillGaps == DefaultFor("skill_gaps")
    ensures "recommendations" in data ==> r.recommendations == data["recommendations"]
    ensures "recommendations" !in data ==> r.recommendations == DefaultFor("recommendations")
  {
    AnalysisReport(
      Get(data, "match_score", JNumber(0)),
      Get(data, "skill_gaps", JArray([])),
      Get(data, "recommendations", JArray([])))
  }

  /** `to_json`: the three fields under their names, in this order. */
  function ToJson(report: AnalysisReport): (members: Members)
    ensures |members| == |ReportKeys|
    ensures forall i :: 0 <= i < |members| ==> members[i].0 == ReportKeys[i]
  {
    [("match_score", report.matchScore),
     ("skill_gaps", report.skillGaps),
     ("recommendations", report.recommendations)]
  }

  /** The dict `json.loads` gives back for written members: a later member
      with the same name replaces an earlier one. */
  function ObjectOf(members: Members): (d: Dict)
    ensures forall k :: k in d <==> exists i :: 0 <= i < |members| && members[i].0 == k
  {
    if members == [] then map[]
    else
      var front := members[..|members| - 1];
      var last := members[|members| - 1];
      assert forall i :: 0 <= i < |front| ==> front[i] == members[i];
      ObjectOf(front)[last.0 := last.1]
  }

  /** The dict a reader of the written report gets back: it holds exactly
      the three report keys, whatever the input held. */
  function Normalise(data: Dict): (d: Dict)
    ensures d.Keys == {"match_score", "skill_gaps", "recommendations"}
  {
    var members := ToJson(FromAnalysis(data));
    assert members[0].0 == "match_score" && members[1].0 == "skill_gaps" && members[2].0 == "recommendations";
    ObjectOf(members)
  }

  /** The written report read back: its three members, in order. */
  lemma NormaliseUnfolded(data: Dict)
    ensures var r := FromAnalysis(data);
            Normalise(data) == map["match_score" := r.matchScore][
                                   "skill_gaps" := r.skillGaps]["recommendations" := r.recommendations]
  {
    var members := ToJson(FromAnalysis(data));
    assert members[..2][..1][..0] == [];
    assert ObjectOf(members[..2][..1]) == map[][members[0].0 := members[0].1];
    assert ObjectOf(members[..2]) == ObjectOf(members[..2][..1])[members[1].0 := members[1].1];
  }

  /** Each key of the report holds the input's value under that key, copied
      as it is, or the default when the input lacks it. */
  lemma NormalisedValue(data: Dict, key: string)
    requires key in ReportKeys
    ensures key in Normalise(data)
    ensures Normalise(data)[key] == if key in data then data[key] else DefaultFor(key)
  {
    NormaliseUnfolded(data);
  }

  /** An empty dictionary gives the zero report. */
  lemma EmptyInputGivesDefaults()
    ensures Normalise(map[]) == map["match_score" := JNumber(0), "skill_gaps" := JArray([]), "recommendations" := JArray([])]
  {
    NormaliseUnfolded(map[]);
  }

  /** Keys other than the three, `skill_gap` among them, are dropped. */
  lemma OtherKeysIgnored(data: Dict, key: string, value: Json)
    requires key !in ReportKeys
    ensures FromAnalysis(data[key := value]) == FromAnalysis(data)
    ensures FromAnalysis(data - {key}) == FromAnalysis(data)
  {
  }

  /** A dictionary with exactly the three keys comes back unchanged. */
  lemma RoundTrip(data: Dict)
    requires data.Keys == {"match_score", "skill_gaps", "recommendations"}
    ensures Normalise(data) == data
  {
    forall k | k in data ensures Normalise(data)[k] == data[k] {
      NormalisedValue(data, k);
    }
  }

  /** Normalising twice is normalising once. */
  lemma NormaliseIdempotent(data: Dict)
    ensures Normalise(Normalise(data)) == Normalise(data)
  {
    RoundTrip(Normalise(data));
  }
}
