/**
 * ToolModel: the tool record, its sample data and the search filter over it.
 * The two date fields come from the clock and are not part of the record here.
 */
module Tools {
  import opened Text
  import opened Seqs

  datatype ToolModel = ToolModel(id: int, name: string, description: string, category: string, version: string, status: string)

  /** A tool matches an already lower-cased query when one of its four searchable texts contains it. */
  predicate Matches(t: ToolModel, query: string) {
    || Contains(ToLower(t.name), query)
    || Contains(ToLower(t.description), query)
    || Contains(ToLower(t.category), query)
    || Contains(ToLower(t.status), query)
  }

  /**
   * `SearchTools`: a blank query returns the list itself; otherwise the tools
   * matching the lower-cased query, in their original order.
   */
  function SearchTools(tools: seq<ToolModel>, searchText: string): (r: seq<ToolModel>)
    ensures IsNullOrWhiteSpace(searchText) ==> r == tools
    ensures |r| <= |tools|
    ensures !IsNullOrWhiteSpace(searchText) ==>
      forall i :: 0 <= i < |r| ==> r[i] in tools && Matches(r[i], ToLower(searchText))
    ensures !IsNullOrWhiteSpace(searchText) ==>
      forall i :: 0 <= i < |tools| && Matches(tools[i], ToLower(searchText)) ==> tools[i] in r
  {
    if IsNullOrWhiteSpace(searchText) then tools
    else
      var query := ToLower(searchText);
      Filter(tools, t => Matches(t, query))
  }

  /** Searching a search result again with the same text gives the same list. */
  lemma {:induction false} SearchIdempotent(tools: seq<ToolModel>, searchText: string)
    ensures SearchTools(SearchTools(tools, searchText), searchText) == SearchTools(tools, searchText)
  {
    if !IsNullOrWhiteSpace(searchText) {
      FilterIdempotent(tools, t => Matches(t, ToLower(searchText)));
    }
  }

  /** Searching preserves order: the result for a concatenation is the concatenation of the results. */
  lemma {:induction false} SearchPreservesOrder(a: seq<ToolModel>, b: seq<ToolModel>, searchText: string)
    ensures SearchTools(a + b, searchText) == SearchTools(a, searchText) + SearchTools(b, searchText)
  {
    if !IsNullOrWhiteSpace(searchText) {
      FilterAppend(a, b, t => Matches(t, ToLower(searchText)));
    }
  }

  /** The id and the version are never searched: tools differing only there are found together. */
  lemma IdAndVersionNotSearched(t: ToolModel, id: int, version: string, searchText: string)
    ensures SearchTools([t], searchText) == [t] <==> SearchTools([t.(id := id, version := version)], searchText) == [t.(id := id, version := version)]
  {
  }

  /** `GetFakeData`: ten sample tools whose ids are 1 to 10 in order. */
  function GetFakeData(): (r: seq<ToolModel>)
    ensures |r| == 10
    ensures forall i :: 0 <= i < |r| ==> r[i].id == i + 1
  {
    [ ToolModel(1, "Code Generator", "Automatically generates boilerplate code for various patterns", "Development", "1.2.3", "Active"),
      ToolModel(2, "Database Migrator", "Tool for managing database schema migrations", "Database", "2.1.0", "Active"),
      ToolModel(3, "API Tester", "Comprehensive API testing and validation tool", "Testing", "3.0.1", "Inactive"),
      ToolModel(4, "Log Analyzer", "Advanced log file analysis and reporting tool", "Monitoring", "1.5.2", "Active"),
      ToolModel(5, "Performance Monitor", "Real-time application performance monitoring", "Monitoring", "2.3.1", "Active"),
      ToolModel(6, "Config Manager", "Centralized configuration management system", "Configuration", "1.8.4", "Maintenance"),
      ToolModel(7, "Report Builder", "Dynamic report generation and customization tool", "Reporting", "2.0.0", "Active"),
      ToolModel(8, "Security Scanner", "Automated security vulnerability scanning tool", "Security", "1.4.7", "Active"),
      ToolModel(9, "Backup Manager", "Automated backup and recovery management system", "Utility", "3.1.2", "Active"),
      ToolModel(10, "Documentation Generator", "Automatic documentation generation from code comments", "Development", "1.3.5", "Inactive") ]
  }
}
