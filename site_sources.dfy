/**
 * Dispatch of the sources section to the registered providers: the first
 * provider whose system is the configured one renders the section.
 */
module SiteSources {
  import opened Wrappers
  import opened Markup
  import opened Failures
  import opened Configurations
  import opened SiteEnvironment

  /** The section of the first provider for `sources.system`, or the failure naming that system. */
  function SourcesSpec(sources: SourcesConfig, providers: seq<SourcesProvider>): Result<Node, Failure> {
    if providers == [] then Failure(NoSourcesProvider(sources.system))
    else if providers[0].system == sources.system then Success(providers[0].evaluate(sources))
    else SourcesSpec(sources, providers[1..])
  }

  /**
   * Dispatch succeeds exactly when some provider handles the system, and
   * then yields what the first such provider renders.
   */
  lemma {:induction false} SourcesFirstMatch(sources: SourcesConfig, providers: seq<SourcesProvider>)
    ensures SourcesSpec(sources, providers).Success? <==>
      exists i :: 0 <= i < |providers| && providers[i].system == sources.system
    ensures SourcesSpec(sources, providers).Success? ==>
      exists i :: 0 <= i < |providers| && providers[i].system == sources.system &&
        (forall j :: 0 <= j < i ==> providers[j].system != sources.system) &&
        SourcesSpec(sources, providers).value == providers[i].evaluate(sources)
  {
    if providers != [] && providers[0].system != sources.system {
      var rest := providers[1..];
      SourcesFirstMatch(sources, rest);
      if exists i :: 0 <= i < |providers| && providers[i].system == sources.system {
        var i :| 0 <= i < |providers| && providers[i].system == sources.system;
        assert rest[i - 1] == providers[i];
      }
      if SourcesSpec(sources, rest).Success? {
        var i :| 0 <= i < |rest| && rest[i].system == sources.system &&
          (forall j :: 0 <= j < i ==> rest[j].system != sources.system) &&
          SourcesSpec(sources, rest).value == rest[i].evaluate(sources);
        assert providers[i + 1] == rest[i];
        assert forall j :: 1 <= j < i + 1 ==> providers[j] == rest[j - 1];
      }
    }
  }

  /** When no provider handles the system, the failure names that system. */
  lemma {:induction false} SourcesNoProvider(sources: SourcesConfig, providers: seq<SourcesProvider>)
    ensures SourcesSpec(sources, providers).Failure? ==>
      SourcesSpec(sources, providers).error == NoSourcesProvider(sources.system) &&
      SourcesSpec(sources, providers).error.Message() ==
        Some("No providers are available for source repositories of type: " + sources.system)
  {
    if providers != [] && providers[0].system != sources.system {
      SourcesNoProvider(sources, providers[1..]);
    }
  }

  /** `sources`: iterate over the providers and return at the first whose system matches. */
  method FindSources(sources: SourcesConfig, providers: seq<SourcesProvider>) returns (r: Result<Node, Failure>)
    ensures r == SourcesSpec(sources, providers)
  {
    var i := 0;
    while i < |providers|
      invariant 0 <= i <= |providers|
      invariant SourcesSpec(sources, providers[i..]) == SourcesSpec(sources, providers)
    {
      var provider := providers[i];
      if provider.system == sources.system {
        return Success(provider.evaluate(sources));
      }
      assert providers[i..][1..] == providers[i + 1..];
      i := i + 1;
    }
    return Failure(NoSourcesProvider(sources.system));
  }
}
