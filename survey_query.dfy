/** The survey-data accessor: one of two fixed SELECT statements, chosen by
    whether a category was given, with the names spliced in between quotes
    as they are (no escaping). The database fetch and the JSON rendering of
    its result are parameters. */
module SurveyQuery {
  import opened Wrappers
  import opened Values

  function Spaces(n: nat): (s: string)
    ensures |s| == n && forall k :: 0 <= k < n ==> s[k] == ' '
  {
    if n == 0 then "" else " " + Spaces(n - 1)
  }

  /** The statement text up to the opening quote of the survey name. The
      source's lines end in CR LF, which a Python string literal reads as a
      single newline. */
  const QueryHead: string :=
    "\n" + Spaces(28) + "Select network_survey.name as survey_name,\n"
    + Spaces(8) + "network_category.name as category,\n"
    + Spaces(8) + "[user].id as user_id,\n"
    + Spaces(8) + "[user].fullname as [user_name],\n"
    + Spaces(8) + "opm_calculation.closeness_centrality\n"
    + Spaces(8) + "from opm_calculation\n"
    + Spaces(8) + "left join [user] on opm_calculation.user_id=[user].id\n"
    + Spaces(8) + "left join network_survey on opm_calculation.survey_id=network_survey.id\n"
    + Spaces(8) + "left join network_category on opm_calculation.category_id=network_category.id\n"
    + Spaces(8) + "where network_survey.name like '"

  /** What follows the last quoted value: the line end and the indentation
      of the closing triple quote. */
  const QueryTail: string := "'\n" + Spaces(8)

  const CategoryFilter: string := "' and network_category.name='"

  function ByName(surveyName: string): string
  {
    QueryHead + surveyName + QueryTail
  }

  function ByNameAndCategory(surveyName: string, categoryName: string): string
  {
    QueryHead + surveyName + CategoryFilter + categoryName + QueryTail
  }

  /** `if not category_name`: None and "" are falsy. */
  function SelectQuery(surveyName: string, categoryName: Option<string>): (q: string)
    ensures categoryName == None || categoryName == Some("") ==> q == ByName(surveyName)
    ensures categoryName.Some? && categoryName.value != "" ==> q == ByNameAndCategory(surveyName, categoryName.value)
  {
    if categoryName.None? || categoryName.value == "" then ByName(surveyName)
    else ByNameAndCategory(surveyName, categoryName.value)
  }

  /** get_all_user_survey_data_from_database: exactly one query, whose
      result is returned as JSON text. */
  function GetSurveyData(surveyName: string, categoryName: Option<string>,
                         fetch: string -> Value, toJson: Value -> string): (r: (string, seq<string>))
    ensures r.1 == [SelectQuery(surveyName, categoryName)]
    ensures r.0 == toJson(fetch(r.1[0]))
  {
    var query := SelectQuery(surveyName, categoryName);
    (toJson(fetch(query)), [query])
  }

  /** The survey name sits verbatim between the fixed head and tail, so it
      can be read back out of the name-only statement. */
  function SurveyOf(q: string): Option<string>
  {
    if |q| >= |QueryHead| + |QueryTail| && q[..|QueryHead|] == QueryHead && q[|q| - |QueryTail|..] == QueryTail
    then Some(q[|QueryHead| .. |q| - |QueryTail|])
    else None
  }

  lemma SurveyRoundTrip(surveyName: string)
    ensures SurveyOf(ByName(surveyName)) == Some(surveyName)
  {
    var q := ByName(surveyName);
    assert q[..|QueryHead|] == QueryHead;
    assert q[|q| - |QueryTail|..] == QueryTail;
    assert q[|QueryHead| .. |q| - |QueryTail|] == surveyName;
  }

  /** Because nothing is escaped, a survey name that carries its own quote
      and category clause turns the name-only statement into the category
      statement. */
  lemma UnescapedSurveyName(surveyName: string, categoryName: string)
    requires categoryName != ""
    ensures SelectQuery(surveyName + CategoryFilter + categoryName, None)
         == SelectQuery(surveyName, Some(categoryName))
  {
    assert QueryHead + (surveyName + CategoryFilter + categoryName) + QueryTail
        == QueryHead + surveyName + CategoryFilter + categoryName + QueryTail;
  }

  /** For names without a quote the two statements never coincide: the
      category given or not is visible in the statement. */
  lemma QuoteFreeQueriesDiffer(s1: string, s2: string, categoryName: string)
    requires forall k :: 0 <= k < |s1| ==> s1[k] != '\''
    requires forall k :: 0 <= k < |s2| ==> s2[k] != '\''
    ensures ByName(s1) != ByNameAndCategory(s2, categoryName)
  {
    var a := ByName(s1);
    var b := ByNameAndCategory(s2, categoryName);
    var h := |QueryHead|;
    assert a[h + |s1|] == '\'';
    assert b[h + |s2|] == '\'';
    if |s1| < |s2| {
      assert b[h + |s1|] == s2[|s1|];
    } else if |s1| > |s2| {
      assert a[h + |s2|] == s1[|s2|];
    } else {
      assert a[h + |s1| + 1] == '\n';
      assert b[h + |s1| + 1] == ' ';
    }
  }
}
