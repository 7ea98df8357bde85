/** How a file's initial stage tables come about (al/core/servicing.py). */
module Servicing {
  // The names selected and excluded are expanded, exclusions are taken away, and each service that
  // accepts the file's type is entered at its stage.

  import opened Prelude
  import opened Categories

  datatype Service = Service(stage: nat, category: Name)

  /** The registered services; `accepts` stands for the accept and reject patterns. */
  datatype Registry = Registry(services: map<Name, Service>, cats: Table, system: Name, stages: nat,
                               accepts: (Name, string) -> bool)
  {
    function Done(): nat { stages + 1 }

    ghost predicate Valid() {
      forall n | n in services :: 1 <= services[n].stage <= stages
    }
  }

  datatype Tables = Tables(acknowledged: seq<set<Name>>, completed: seq<set<Name>>, dispatched: seq<set<Name>>,
                           outstanding: seq<set<Name>>)

  /** Registered, and the file's tag is accepted (or ignored). */
  predicate Suits(r: Registry, n: Name, ignoreTag: bool, tag: string) {
    n in r.services && (ignoreTag || r.accepts(n, tag))
  }

  function AtStage(r: Registry, names: set<Name>, stage: int): set<Name> {
    set n | n in names && n in r.services && r.services[n].stage == stage
  }

  /** All services when nothing is selected; the system category always; never what is excluded. */
  ghost function Wanted(r: Registry, selected: Option<seq<Name>>, excluded: Option<seq<Name>>): set<Name>
    requires Halts(r.cats, selected.GetOr([])) && Halts(r.cats, excluded.GetOr([]))
  {
    (if selected.GetOr([]) == [] then r.services.Keys else Walk(r.cats, selected.value, {}))
    + (set n | n in r.services && r.services[n].category == r.system)
    - Walk(r.cats, excluded.GetOr([]), {})
  }

  method DetermineServices(r: Registry, selected0: Option<seq<Name>>, excluded0: Option<seq<Name>>, ignoreTag: bool, tag: string)
    returns (tables: Tables, selected: set<Name>, skipped: set<Name>)
    requires r.Valid() && Halts(r.cats, selected0.GetOr([])) && Halts(r.cats, excluded0.GetOr([]))
    ensures selected == set n | n in Wanted(r, selected0, excluded0) && Suits(r, n, ignoreTag, tag)
    ensures skipped == Wanted(r, selected0, excluded0) - selected
    ensures |tables.outstanding| == |tables.dispatched| == |tables.acknowledged| == |tables.completed| == r.Done() + 1
    ensures forall y | 0 <= y <= r.Done() :: tables.outstanding[y] == AtStage(r, selected, y)
    ensures forall y | 0 <= y <= r.Done() :: tables.dispatched[y] == tables.acknowledged[y] == tables.completed[y] == {}
  {
    hide Walk, AtStage, Suits, HaltsFrom;
    var empty: seq<set<Name>> := seq(r.Done() + 1, _ => {});
    var excluded := ExpandCategories(r.cats, excluded0);
    var chosen: set<Name> := {};
    if selected0.GetOr([]) == [] {
      chosen := r.services.Keys;
    } else {
      chosen := ExpandCategories(r.cats, selected0);
    }
    var system := set n | n in r.services && r.services[n].category == r.system;
    var outstanding;
    outstanding, selected, skipped := EnterServices(r, chosen + system - excluded, ignoreTag, tag);
    tables := Tables(empty, empty, empty, outstanding);
  }

  lemma NoneAtStage(r: Registry)
    ensures forall z :: AtStage(r, {}, z) == {}
  {}

  /** Entering one more service at its stage keeps the tables right. */
  lemma OneMoreAtStage(r: Registry, tables: seq<set<Name>>, names: set<Name>, n: Name)
    requires n in r.services && r.services[n].stage < |tables|
    requires forall y | 0 <= y < |tables| :: tables[y] == AtStage(r, names, y)
    ensures var z := r.services[n].stage;
            forall y | 0 <= y < |tables| :: tables[z := tables[z] + {n}][y] == AtStage(r, names + {n}, y)
  {}

  /** The loop over the wanted services, in whatever order the set lists them. */
  method EnterServices(r: Registry, wanted: set<Name>, ignoreTag: bool, tag: string)
    returns (outstanding: seq<set<Name>>, selected: set<Name>, skipped: set<Name>)
    requires r.Valid()
    ensures selected == set n | n in wanted && Suits(r, n, ignoreTag, tag)
    ensures skipped == wanted - selected
    ensures |outstanding| == r.Done() + 1 && forall y | 0 <= y <= r.Done() :: outstanding[y] == AtStage(r, selected, y)
  {
    hide AtStage;
    var work := wanted;
    NoneAtStage(r);
    outstanding := seq(r.Done() + 1, _ => {});
    selected, skipped := {}, {};
    while work != {}
      invariant work <= wanted
      invariant forall n :: n in selected <==> n in wanted - work && Suits(r, n, ignoreTag, tag)
      invariant skipped == (wanted - work) - selected
      invariant |outstanding| == r.Done() + 1 && forall y | 0 <= y <= r.Done() :: outstanding[y] == AtStage(r, selected, y)
      decreases |work|
    {
      var name :| name in work;
      assert wanted - (work - {name}) == (wanted - work) + {name};
      if name in r.services && (ignoreTag || r.accepts(name, tag)) {
        var y := r.services[name].stage;
        OneMoreAtStage(r, outstanding, selected, name);
        outstanding := outstanding[y := outstanding[y] + {name}];
        selected := selected + {name};
      } else {
        skipped := skipped + {name};
      }
      work := work - {name};
    }
  }

  /** Every selected service stands in the table of exactly one stage, its own. */
  lemma OneStageEach(r: Registry, tables: seq<set<Name>>, selected: set<Name>, n: Name)
    requires r.Valid() && |tables| == r.Done() + 1 && (forall m | m in selected :: m in r.services)
    requires forall y | 0 <= y <= r.Done() :: tables[y] == AtStage(r, selected, y)
    ensures n in selected <==> exists y | 0 <= y <= r.Done() :: n in tables[y]
    ensures forall y, z | 0 <= y <= r.Done() && 0 <= z <= r.Done() && n in tables[y] && n in tables[z] :: y == z
    ensures tables[0] == {} && tables[r.Done()] == {}
  {
    if n in selected { assert n in tables[r.services[n].stage]; }
  }
}
