/** The ingestor registry: a module-level dictionary from names to ingestor
    functions that the `register_ingestor` decorator fills, in the order the
    ingestors are defined. */
module Registry {
  import opened Outcomes

  /** The ingestors defined alongside the registry, standing for their
      functions. */
  datatype Ingestor =
    | TemplatedContent
    | GenericMessage
    | ToolResult
    | MarkdownFormatter
    | WorkModules
    | AvailableAssociates
    | PrincipalHistorySummary
    | JsonHistory
    | TaggedContent
    | ObserverFailure
    | DispatchResult
    | UserPrompt
    | ProtocolAware

  /** The registrations the module performs as it is loaded, in order. */
  const Registrations: seq<(string, Ingestor)> := [
    ("templated_content_ingestor", TemplatedContent),
    ("generic_message_ingestor", GenericMessage),
    ("tool_result_ingestor", ToolResult),
    ("markdown_formatter_ingestor", MarkdownFormatter),
    ("work_modules_ingestor", WorkModules),
    ("available_associates_ingestor", AvailableAssociates),
    ("principal_history_summary_ingestor", PrincipalHistorySummary),
    ("json_history_ingestor", JsonHistory),
    ("tagged_content_ingestor", TaggedContent),
    ("observer_failure_ingestor", ObserverFailure),
    ("dispatch_result_ingestor", DispatchResult),
    ("user_prompt_ingestor", UserPrompt),
    ("protocol_aware_ingestor", ProtocolAware)
  ]

  /** The registry after a series of registrations, each overwriting any
      earlier entry under its name. */
  function RegistryAfter(start: map<string, Ingestor>, regs: seq<(string, Ingestor)>): map<string, Ingestor>
    decreases |regs|
  {
    if regs == [] then start
    else
      var last := regs[|regs| - 1];
      RegistryAfter(start, regs[..|regs| - 1])[last.0 := last.1]
  }

  /** The last function registered under a name, if any. */
  function LastRegistered(regs: seq<(string, Ingestor)>, name: string): (r: Option<Ingestor>)
    ensures r.Some? ==> (name, r.value) in regs
    ensures r.None? ==> forall i :: 0 <= i < |regs| ==> regs[i].0 != name
    decreases |regs|
  {
    if regs == [] then None
    else if regs[|regs| - 1].0 == name then Some(regs[|regs| - 1].1)
    else LastRegistered(regs[..|regs| - 1], name)
  }

  /** Registering again under a name overwrites: the registry holds, for
      each name, the last function registered under it, and keeps the
      starting entries of names never registered. */
  lemma {:induction false} LastRegistrationWins(start: map<string, Ingestor>, regs: seq<(string, Ingestor)>, name: string)
    ensures var m := RegistryAfter(start, regs);
            && (LastRegistered(regs, name).Some? ==> name in m && m[name] == LastRegistered(regs, name).value)
            && (LastRegistered(regs, name).None? ==> (name in m <==> name in start) && (name in start ==> m[name] == start[name]))
    decreases |regs|
  {
    if regs != [] {
      LastRegistrationWins(start, regs[..|regs| - 1], name);
    }
  }

  /** The names in the registry are the starting ones and the registered
      ones. */
  lemma {:induction false} RegistryNames(start: map<string, Ingestor>, regs: seq<(string, Ingestor)>)
    ensures RegistryAfter(start, regs).Keys == start.Keys + set i | 0 <= i < |regs| :: regs[i].0
    decreases |regs|
  {
    if regs != [] {
      var init := regs[..|regs| - 1];
      RegistryNames(start, init);
      var names := set i | 0 <= i < |regs| :: regs[i].0;
      var initNames := set i | 0 <= i < |init| :: init[i].0;
      assert names == initNames + {regs[|regs| - 1].0} by {
        forall n | n in names
          ensures n in initNames + {regs[|regs| - 1].0}
        {
          var i :| 0 <= i < |regs| && regs[i].0 == n;
          if i < |init| {
            assert init[i].0 == n;
          }
        }
        forall n | n in initNames
          ensures n in names
        {
          var i :| 0 <= i < |init| && init[i].0 == n;
          assert regs[i].0 == n;
        }
      }
    }
  }

  /** The registry itself, filled as the module loads. */
  class IngestorRegistry {
    var ingestors: map<string, Ingestor>

    constructor()
      ensures ingestors == map[]
    {
      ingestors := map[];
    }

    /** `register_ingestor(name)(f)`: stores `f` under `name`, replacing
        any earlier function, and gives `f` back unchanged. */
    method Register(name: string, f: Ingestor) returns (g: Ingestor)
      modifies this
      ensures g == f
      ensures ingestors == old(ingestors)[name := f]
    {
      ingestors := ingestors[name := f];
      g := f;
    }

    /** The decorators applied in order. */
    method RegisterAll(regs: seq<(string, Ingestor)>)
      modifies this
      ensures ingestors == RegistryAfter(old(ingestors), regs)
    {
      ghost var start := ingestors;
      for i := 0 to |regs|
        invariant ingestors == RegistryAfter(start, regs[..i])
      {
        assert regs[..i + 1][..i] == regs[..i];
        var _ := Register(regs[i].0, regs[i].1);
      }
      assert regs[..|regs|] == regs;
    }
  }

  /** After loading, the registry holds the thirteen ingestors, each name
      under the function defined with it. */
  lemma LoadedRegistry()
    ensures RegistryAfter(map[], Registrations).Keys == set i | 0 <= i < |Registrations| :: Registrations[i].0
    ensures forall i :: 0 <= i < |Registrations| ==>
              RegistryAfter(map[], Registrations)[Registrations[i].0] == Registrations[i].1
  {
    RegistryNames(map[], Registrations);
    forall i | 0 <= i < |Registrations|
      ensures RegistryAfter(map[], Registrations)[Registrations[i].0] == Registrations[i].1
    {
      LastRegistrationWins(map[], Registrations, Registrations[i].0);
      NamesDistinct(i);
    }
  }

  /** Each name is registered once. */
  lemma NamesDistinct(i: nat)
    requires i < |Registrations|
    ensures LastRegistered(Registrations, Registrations[i].0) == Some(Registrations[i].1)
  {
  }
}
