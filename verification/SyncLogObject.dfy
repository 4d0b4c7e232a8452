/** The log as an object. It keeps five results, and knows of the rest only through its ghost history. */
module SyncLogObjects {
  import opened Wrappers
  import opened SyncLogs

  class SyncLog {
    var profileName: string
    var results: seq<Results>
    var lastSuccessfulResults: Option<Results>
    ghost var history: seq<Results>

    ghost function View(): Log reads this {
      Log(profileName, results, lastSuccessfulResults)
    }

    ghost predicate Valid() reads this {
      View() == FromHistory(profileName, history)
    }

    constructor (name: string)
      ensures Valid() && profileName == name && history == []
    {
      profileName, results, lastSuccessfulResults, history := name, [], None, [];
    }

    constructor FromXml(root: LogNode)
      ensures Valid() && View() == Parse(root)
      ensures profileName == root.name && |history| == |root.children|
      ensures forall i | 0 <= i < |history| :: Reads(root.children[i], history[i])
    {
      profileName, results, lastSuccessfulResults, history := root.name, [], None, [];
      new;
      hide IsLastSuccess, NoSuccess, LatestFive, Add;
      ghost var all := seq(|root.children|, i requires 0 <= i < |root.children| => ParseResults(root.children[i]));
      for i := 0 to |root.children|
        invariant Valid() && profileName == root.name && history == all[..i]
      {
        AddResults(ParseResults(root.children[i]));
        assert all[..i + 1] == all[..i] + [all[i]];
      }
      assert all[..|all|] == all;
    }

    method UpdateLastSuccessfulResults(r: Results)
      modifies this`lastSuccessfulResults
      ensures lastSuccessfulResults == Update(old(lastSuccessfulResults), r)
    {
      if Successful(r) && (lastSuccessfulResults.None? || Millis(lastSuccessfulResults.value) < Millis(r)) {
        lastSuccessfulResults := Some(r);
      }
    }

    method AddResults(r: Results)
      requires Valid()
      modifies this
      ensures Valid() && profileName == old(profileName) && history == old(history) + [r]
      ensures results == LatestFive(history)
      ensures lastSuccessfulResults.None? <==> NoSuccess(history)
      ensures forall i: nat | IsLastSuccess(history, i) :: lastSuccessfulResults == Some(history[i])
    {
      hide Update, Successful, Millis;
      if |results| >= MAX_LOG_ENTRIES {
        results := results[1..];
      }
      results := results + [r];
      UpdateLastSuccessfulResults(r);
      history := history + [r];
      assert history[..|history| - 1] == old(history);
      LogFollowsHistory(profileName, history);
    }

    method LastResults() returns (last: Option<Results>)
      requires Valid()
      ensures last == if history == [] then None else Some(history[|history| - 1])
    {
      WindowFollows(profileName, history);
      last := if results == [] then None else Some(results[|results| - 1]);
    }

    method WriteXml() returns (root: LogNode)
      ensures root == ToXml(View())
      ensures root.name == profileName && |root.children| == |Written(View())|
      ensures forall i | 0 <= i < |root.children| :: Prints(Written(View())[i], root.children[i])
    {
      var children := [];
      if lastSuccessfulResults.Some?
         && (results == [] || Millis(lastSuccessfulResults.value) < Millis(results[0])) {
        children := [PrintResults(lastSuccessfulResults.value)];
      }
      ghost var lead := |children|;
      for i := 0 to |results|
        invariant |children| == lead + i
        invariant forall j | 0 <= j < lead + i :: children[j] == PrintResults(Written(View())[j])
      {
        children := children + [PrintResults(results[i])];
      }
      root := LogNode(profileName, children);
    }
  }
}
