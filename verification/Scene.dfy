/** The conditions of a scene: the product of its axes, each choice laid over the scene (`scene.ts`). */
module Scene {
  import opened Common

  datatype Check = Check(id: string, spec: string)

  /** What a scene or one of its values defines. A layer need not define an event; what it leaves out is empty. */
  datatype Content = Content(event: string, files: map<string, string>, copies: map<string, string>,
                             edits: seq<string>, prompt: seq<string>, checks: seq<Check>)

  datatype Layer = Layer(event: Option<string>, files: map<string, string>, copies: map<string, string>,
                         edits: seq<string>, prompt: seq<string>, checks: seq<Check>)

  datatype Value = Value(name: string, layer: Layer)

  datatype Partial = Partial(variant: seq<string>, layers: seq<Layer>)

  // The product of the axes.

  function Times(n: nat, m: nat): nat {
    n * m
  }

  function Quotient(n: nat, m: nat): nat
    requires m > 0
  {
    n / m
  }

  function Remainder(n: nat, m: nat): (r: nat)
    requires m > 0
    ensures r < m
  {
    n % m
  }

  lemma OneMore(n: nat, m: nat)
    ensures Times(0, m) == 0 && Times(n + 1, m) == Times(n, m) + m
  {
  }

  lemma {:induction false} Below(i: nat, n: nat, j: nat, m: nat)
    requires i < n && j < m
    ensures Times(i, m) + j < Times(n, m)
  {
    hide Times;
    OneMore(n - 1, m);
    if i < n - 1 {
      Below(i, n - 1, j, m);
    }
  }

  lemma DivMod(rank: nat, n: nat, m: nat)
    requires m > 0 && rank < Times(n, m)
    ensures Quotient(rank, m) < n && Times(Quotient(rank, m), m) + Remainder(rank, m) == rank
  {
    assert Times(Quotient(rank, m), m) + Remainder(rank, m) == rank;
    hide Times, Quotient, Remainder;
    if n < Quotient(rank, m) {
      Below(n, Quotient(rank, m), 0, m);
    }
  }

  lemma NoneTimes(n: nat)
    ensures Times(n, 0) == 0
  {
  }

  function With(partial: Partial, value: Value): Partial {
    Partial(partial.variant + [value.name], partial.layers + [value.layer])
  }

  function Extended(partial: Partial, values: seq<Value>): seq<Partial> {
    if values == [] then [] else Extended(partial, values[..|values| - 1]) + [With(partial, values[|values| - 1])]
  }

  function FlatMap(all: seq<Partial>, values: seq<Value>): seq<Partial> {
    if all == [] then [] else FlatMap(all[..|all| - 1], values) + Extended(all[|all| - 1], values)
  }

  function Product(axes: seq<seq<Value>>): seq<Partial> {
    if axes == [] then [Partial([], [])] else FlatMap(Product(axes[..|axes| - 1]), axes[|axes| - 1])
  }

  /** One value of each axis, by its place in the axis. */
  predicate IsChoice(axes: seq<seq<Value>>, choice: seq<nat>) {
    |choice| == |axes| && forall a :: 0 <= a < |axes| ==> choice[a] < |axes[a]|
  }

  function Picked(axes: seq<seq<Value>>, choice: seq<nat>): Partial
    requires IsChoice(axes, choice)
  {
    if axes == [] then Partial([], [])
    else With(Picked(axes[..|axes| - 1], choice[..|axes| - 1]), axes[|axes| - 1][choice[|axes| - 1]])
  }

  /** How many choices come before one, when the last axis turns fastest. */
  function Rank(axes: seq<seq<Value>>, choice: seq<nat>): nat
    requires IsChoice(axes, choice)
  {
    if axes == [] then 0
    else Times(Rank(axes[..|axes| - 1], choice[..|axes| - 1]), |axes[|axes| - 1]|) + choice[|axes| - 1]
  }

  /** The choice at a rank. */
  function Choice(axes: seq<seq<Value>>, rank: nat): seq<nat> {
    if axes == [] then []
    else
      var size := |axes[|axes| - 1]|;
      if size == 0 then [] else Choice(axes[..|axes| - 1], Quotient(rank, size)) + [Remainder(rank, size)]
  }

  /** The first axis where they differ decides. */
  predicate Lexicographic(choice: seq<nat>, other: seq<nat>)
    requires |choice| == |other|
  {
    choice != [] &&
    var n := |choice| - 1;
    Lexicographic(choice[..n], other[..n]) || (choice[..n] == other[..n] && choice[n] < other[n])
  }

  lemma {:induction false} ExtendedAt(partial: Partial, values: seq<Value>)
    ensures |Extended(partial, values)| == |values|
    ensures forall j :: 0 <= j < |values| ==> Extended(partial, values)[j] == With(partial, values[j])
  {
    if values != [] {
      ExtendedAt(partial, values[..|values| - 1]);
    }
  }

  lemma {:induction false} FlatMapSize(all: seq<Partial>, values: seq<Value>)
    ensures |FlatMap(all, values)| == Times(|all|, |values|)
  {
    hide Times;
    OneMore(|all| - if all == [] then 0 else 1, |values|);
    if all != [] {
      FlatMapSize(all[..|all| - 1], values);
      ExtendedAt(all[|all| - 1], values);
    }
  }

  lemma {:induction false} FlatMapAt(all: seq<Partial>, values: seq<Value>, i: nat, j: nat)
    requires i < |all| && j < |values|
    ensures Times(i, |values|) + j < |FlatMap(all, values)|
    ensures FlatMap(all, values)[Times(i, |values|) + j] == With(all[i], values[j])
  {
    hide Times, Extended, With;
    var last := |all| - 1;
    FlatMapSize(all, values);
    FlatMapSize(all[..last], values);
    Below(i, |all|, j, |values|);
    if i == last {
      ExtendedAt(all[last], values);
    } else {
      Below(i, last, j, |values|);
      FlatMapAt(all[..last], values, i, j);
    }
  }

  lemma {:induction false} PickedAt(axes: seq<seq<Value>>, choice: seq<nat>, a: nat)
    requires IsChoice(axes, choice) && a < |axes|
    ensures var p := Picked(axes, choice);
            && |p.variant| == |p.layers| == |axes|
            && p.variant[a] == axes[a][choice[a]].name && p.layers[a] == axes[a][choice[a]].layer
  {
    var n := |axes| - 1;
    if a < n {
      PickedAt(axes[..n], choice[..n], a);
    } else if n > 0 {
      PickedAt(axes[..n], choice[..n], 0);
    }
  }

  lemma {:induction false} PickedStands(axes: seq<seq<Value>>, choice: seq<nat>)
    requires IsChoice(axes, choice)
    ensures Rank(axes, choice) < |Product(axes)| && Product(axes)[Rank(axes, choice)] == Picked(axes, choice)
  {
    hide Times;
    if axes != [] {
      var n := |axes| - 1;
      PickedStands(axes[..n], choice[..n]);
      FlatMapAt(Product(axes[..n]), axes[n], Rank(axes[..n], choice[..n]), choice[n]);
    }
  }

  /** At the rank of every choice the product has the choice's names and layers, in the order of the axes. */
  lemma {:induction false} ProductAt(axes: seq<seq<Value>>, choice: seq<nat>)
    requires IsChoice(axes, choice)
    ensures Rank(axes, choice) < |Product(axes)|
    ensures var p := Product(axes)[Rank(axes, choice)];
            && |p.variant| == |p.layers| == |axes|
            && forall a :: 0 <= a < |axes| ==>
                 p.variant[a] == axes[a][choice[a]].name && p.layers[a] == axes[a][choice[a]].layer
  {
    PickedStands(axes, choice);
    forall a | 0 <= a < |axes|
      ensures var p := Picked(axes, choice);
              && |p.variant| == |p.layers| == |axes|
              && p.variant[a] == axes[a][choice[a]].name && p.layers[a] == axes[a][choice[a]].layer
    {
      PickedAt(axes, choice, a);
    }
    hide Product, Rank;
  }

  lemma ChoiceEnds(axes: seq<seq<Value>>, rank: nat)
    requires axes != [] && |axes[|axes| - 1]| > 0
    requires IsChoice(axes[..|axes| - 1], Choice(axes[..|axes| - 1], Quotient(rank, |axes[|axes| - 1]|)))
    ensures var n, m := |axes| - 1, |axes[|axes| - 1]|;
            && IsChoice(axes, Choice(axes, rank))
            && Choice(axes, rank)[..n] == Choice(axes[..n], Quotient(rank, m)) && Choice(axes, rank)[n] == Remainder(rank, m)
  {
    var n, m := |axes| - 1, |axes[|axes| - 1]|;
    var before, last := Choice(axes[..n], Quotient(rank, m)), Remainder(rank, m);
    assert Choice(axes, rank) == before + [last];
    hide Choice, Quotient, Remainder;
    IsChoicePush(axes, before, last);
  }

  lemma IsChoicePush(axes: seq<seq<Value>>, before: seq<nat>, last: nat)
    requires axes != [] && IsChoice(axes[..|axes| - 1], before) && last < |axes[|axes| - 1]|
    ensures IsChoice(axes, before + [last]) && (before + [last])[..|axes| - 1] == before && (before + [last])[|axes| - 1] == last
  {
  }

  /** And it has nothing else: each place is the rank of a choice. */
  lemma {:induction false} EveryPlaceIsAChoice(axes: seq<seq<Value>>, rank: nat)
    requires rank < |Product(axes)|
    ensures IsChoice(axes, Choice(axes, rank)) && Rank(axes, Choice(axes, rank)) == rank
  {
    if axes != [] {
      var n := |axes| - 1;
      var m := |axes[n]|;
      FlatMapSize(Product(axes[..n]), axes[n]);
      hide FlatMap, Times, Choice, Quotient, Remainder;
      NoneTimes(|Product(axes[..n])|);
      DivMod(rank, |Product(axes[..n])|, m);
      EveryPlaceIsAChoice(axes[..n], Quotient(rank, m));
      ChoiceEnds(axes, rank);
    }
  }

  /** Different choices stand at different places, in lexicographic order. */
  lemma {:induction false} RanksAreLexicographic(axes: seq<seq<Value>>, choice: seq<nat>, other: seq<nat>)
    requires IsChoice(axes, choice) && IsChoice(axes, other)
    ensures Rank(axes, choice) < Rank(axes, other) <==> Lexicographic(choice, other)
    ensures Rank(axes, choice) == Rank(axes, other) <==> choice == other
  {
    hide Times;
    if axes != [] {
      var n := |axes| - 1;
      var m := |axes[n]|;
      var r, s := Rank(axes[..n], choice[..n]), Rank(axes[..n], other[..n]);
      RanksAreLexicographic(axes[..n], choice[..n], other[..n]);
      assert choice == choice[..n] + [choice[n]] && other == other[..n] + [other[n]];
      if r < s {
        Below(r, s, choice[n], m);
      } else if s < r {
        Below(s, r, other[n], m);
      }
    }
  }

  // The layers over the scene.

  function AddCheck(checks: seq<Check>, check: Check): seq<Check> {
    var index := IndexOf(checks, check.id);
    if index < |checks| then checks[index := check] else checks + [check]
  }

  /** The first check with the id, or the length. */
  function IndexOf(checks: seq<Check>, id: string): (index: nat)
    ensures index <= |checks|
    ensures index < |checks| ==> checks[index].id == id
    ensures forall k :: 0 <= k < index ==> checks[k].id != id
  {
    if checks == [] || checks[0].id == id then 0 else 1 + IndexOf(checks[1..], id)
  }

  function AddChecks(checks: seq<Check>, added: seq<Check>): seq<Check> {
    if added == [] then checks else AddCheck(AddChecks(checks, added[..|added| - 1]), added[|added| - 1])
  }

  function Over(content: Content, over: Layer): Content {
    Content(if over.event.Some? then over.event.value else content.event,
            content.files + over.files, content.copies + over.copies,
            content.edits + over.edits, content.prompt + over.prompt, AddChecks(content.checks, over.checks))
  }

  function Laid(base: Content, layers: seq<Layer>): Content {
    if layers == [] then base else Over(Laid(base, layers[..|layers| - 1]), layers[|layers| - 1])
  }

  function Join(names: seq<string>): string {
    if names == [] then ""
    else if |names| == 1 then names[0]
    else Join(names[..|names| - 1]) + "/" + names[|names| - 1]
  }

  function Variant(names: seq<string>): string {
    if names == [] then "base" else Join(names)
  }

  /** Something the source changes in place: a record of files, a list of edits or of checks. */
  class Cell<T> {
    var value: T

    constructor (value: T)
      ensures this.value == value
    {
      this.value := value;
    }
  }

  /** The scene's own base, whose parts every condition must leave as they are. */
  datatype Base = Base(event: string, files: Cell<map<string, string>>, copies: Cell<map<string, string>>,
                       edits: Cell<seq<string>>, prompt: Cell<seq<string>>, checks: Cell<seq<Check>>) {
    ghost function View(): Content
      reads files, copies, edits, prompt, checks
    {
      Content(event, files.value, copies.value, edits.value, prompt.value, checks.value)
    }
  }

  /** A condition under construction: parts of its own, copied from the scene's base and changed in place by each layer. */
  class Condition {
    var event: string
    const files: Cell<map<string, string>>
    const copies: Cell<map<string, string>>
    const edits: Cell<seq<string>>
    const prompt: Cell<seq<string>>
    const checks: Cell<seq<Check>>
    const variant: string

    ghost function Repr(): set<object> {
      {this, files, copies, edits, prompt, checks}
    }

    ghost predicate Valid() {
      files != copies && edits != prompt
    }

    ghost function View(): Content
      reads Repr()
    {
      Content(event, files.value, copies.value, edits.value, prompt.value, checks.value)
    }

    /** structuredClone: a copy of every part, none of it shared. */
    constructor (base: Base, variant: string)
      ensures Valid() && fresh(Repr()) && View() == base.View() && this.variant == variant
    {
      var files := new Cell(base.files.value);
      var copies := new Cell(base.copies.value);
      var edits := new Cell(base.edits.value);
      var prompt := new Cell(base.prompt.value);
      var checks := new Cell(base.checks.value);
      event := base.event;
      this.files, this.copies, this.edits, this.prompt, this.checks := files, copies, edits, prompt, checks;
      this.variant := variant;
    }

    method Lay(over: Layer)
      requires Valid()
      modifies Repr()
      ensures View() == Over(old(View()), over)
    {
      if over.event.Some? {
        event := over.event.value;
      }
      files.value := files.value + over.files;
      copies.value := copies.value + over.copies;
      edits.value := edits.value + over.edits;
      prompt.value := prompt.value + over.prompt;
      AddAll(over.checks);
    }

    method AddAll(added: seq<Check>)
      modifies checks
      ensures checks.value == AddChecks(old(checks.value), added)
    {
      for i := 0 to |added|
        invariant checks.value == AddChecks(old(checks.value), added[..i])
      {
        assert added[..i + 1][..i] == added[..i];
        var index := FindIndex(added[i].id);
        if index < |checks.value| {
          checks.value := checks.value[index := added[i]];
        } else {
          checks.value := checks.value + [added[i]];
        }
      }
      assert added[..|added|] == added;
    }

    method FindIndex(id: string) returns (index: nat)
      ensures index == IndexOf(checks.value, id)
    {
      index := 0;
      while index < |checks.value| && checks.value[index].id != id
        invariant index <= |checks.value| && forall k :: 0 <= k < index ==> checks.value[k].id != id
      {
        index := index + 1;
      }
    }
  }

  method AllPartials(axes: seq<seq<Value>>) returns (all: seq<Partial>)
    ensures all == Product(axes)
  {
    all := [Partial([], [])];
    for a := 0 to |axes|
      invariant all == Product(axes[..a])
    {
      assert axes[..a + 1][..a] == axes[..a];
      all := FlatMap(all, axes[a]);
    }
    assert axes[..|axes|] == axes;
  }

  /** The condition has the content with the layers of its choice laid over it, and is named for the choice. */
  ghost predicate IsLaid(condition: Condition, content: Content, partial: Partial)
    reads condition.Repr()
  {
    condition.View() == Laid(content, partial.layers) && condition.variant == Variant(partial.variant)
  }

  method LayAll(base: Base, partial: Partial) returns (condition: Condition)
    ensures condition.Valid() && fresh(condition.Repr())
    ensures IsLaid(condition, base.View(), partial)
  {
    hide Over, Variant;
    condition := new Condition(base, Variant(partial.variant));
    for l := 0 to |partial.layers|
      invariant condition.Valid() && fresh(condition.Repr()) && condition.View() == Laid(base.View(), partial.layers[..l])
    {
      assert partial.layers[..l + 1][..l] == partial.layers[..l];
      condition.Lay(partial.layers[l]);
    }
    assert partial.layers[..|partial.layers|] == partial.layers;
  }

  /**
   One condition for each place of the product, laid over the base as it was. Each has parts of its own: none is shared with
   another condition, and the scene's base is as it was.
   */
  method Conditions(base: Base, axes: seq<seq<Value>>) returns (all: seq<Condition>)
    ensures base.View() == old(base.View())
    ensures |all| == |Product(axes)|
    ensures forall k :: 0 <= k < |all| ==> all[k].Valid() && fresh(all[k].Repr())
    ensures forall k, l :: 0 <= k < l < |all| ==> all[k].Repr() !! all[l].Repr()
    ensures forall k :: 0 <= k < |all| ==> IsLaid(all[k], base.View(), Product(axes)[k])
  {
    hide Laid, Variant, IsLaid;
    var partials := AllPartials(axes);
    all := [];
    for k := 0 to |partials|
      invariant |all| == k
      invariant forall i :: 0 <= i < k ==> all[i].Valid() && fresh(all[i].Repr())
      invariant forall i, j :: 0 <= i < j < k ==> all[i].Repr() !! all[j].Repr()
      invariant forall i :: 0 <= i < k ==> IsLaid(all[i], base.View(), partials[i])
    {
      var condition := LayAll(base, partials[k]);
      all := all + [condition];
    }
  }

  // What a condition has of its layers.

  function Places(content: Content, copies: bool): map<string, string> {
    if copies then content.copies else content.files
  }

  function PlacesOf(layer: Layer, copies: bool): map<string, string> {
    if copies then layer.copies else layer.files
  }

  /** The last layer that defines an event has it; without one it is the scene's. */
  lemma {:induction false} LastEventWins(base: Content, layers: seq<Layer>, last: nat)
    requires last <= |layers| && (forall l :: last <= l < |layers| ==> layers[l].event.None?)
    requires last > 0 ==> layers[last - 1].event.Some?
    ensures Laid(base, layers).event == if last == 0 then base.event else layers[last - 1].event.value
  {
    if last < |layers| {
      LastEventWins(base, layers[..|layers| - 1], last);
    }
  }

  /** The last layer that defines a file or a copy has it; without one it is the scene's, or there is none. */
  lemma {:induction false} LastPlaceWins(base: Content, layers: seq<Layer>, copies: bool, path: string, last: nat)
    requires last <= |layers| && (forall l :: last <= l < |layers| ==> path !in PlacesOf(layers[l], copies))
    requires last > 0 ==> path in PlacesOf(layers[last - 1], copies)
    ensures var places := Places(Laid(base, layers), copies);
            && (path in places <==> last > 0 || path in Places(base, copies))
            && (path in places ==>
                  places[path] == if last > 0 then PlacesOf(layers[last - 1], copies)[path] else Places(base, copies)[path])
  {
    if last < |layers| {
      LastPlaceWins(base, layers[..|layers| - 1], copies, path, last);
    }
  }

  function AllEdits(layers: seq<Layer>): seq<string> {
    if layers == [] then [] else layers[0].edits + AllEdits(layers[1..])
  }

  function AllPrompts(layers: seq<Layer>): seq<string> {
    if layers == [] then [] else layers[0].prompt + AllPrompts(layers[1..])
  }

  function AllChecks(layers: seq<Layer>): seq<Check> {
    if layers == [] then [] else layers[0].checks + AllChecks(layers[1..])
  }

  lemma {:induction false} AddChecksConcat(checks: seq<Check>, a: seq<Check>, b: seq<Check>)
    ensures AddChecks(checks, a + b) == AddChecks(AddChecks(checks, a), b)
  {
    if b == [] {
      assert a + b == a;
    } else {
      assert (a + b)[..|a + b| - 1] == a + b[..|b| - 1];
      AddChecksConcat(checks, a, b[..|b| - 1]);
    }
  }

  lemma {:induction false} LaidFirst(base: Content, layers: seq<Layer>)
    requires layers != []
    ensures Laid(base, layers) == Laid(Over(base, layers[0]), layers[1..])
  {
    if |layers| > 1 {
      LaidFirst(base, layers[..|layers| - 1]);
      assert layers[..|layers| - 1][1..] == layers[1..][..|layers| - 2];
    }
  }

  /** Edits and prompt edits are the scene's, then each layer's in the layers' order. */
  lemma {:induction false} EditsInOrder(base: Content, layers: seq<Layer>)
    ensures Laid(base, layers).edits == base.edits + AllEdits(layers)
    ensures Laid(base, layers).prompt == base.prompt + AllPrompts(layers)
    decreases |layers|
  {
    if layers != [] {
      LaidFirst(base, layers);
      hide Laid, AddChecks;
      EditsInOrder(Over(base, layers[0]), layers[1..]);
    } else {
      assert base.edits + [] == base.edits;
    }
  }

  lemma {:induction false} ChecksInOrder(base: Content, layers: seq<Layer>)
    ensures Laid(base, layers).checks == AddChecks(base.checks, AllChecks(layers))
    decreases |layers|
  {
    if layers != [] {
      LaidFirst(base, layers);
      hide Laid, AddChecks;
      ChecksInOrder(Over(base, layers[0]), layers[1..]);
      AddChecksConcat(base.checks, layers[0].checks, AllChecks(layers[1..]));
    }
  }

  function Ids(checks: seq<Check>): seq<string> {
    if checks == [] then [] else Ids(checks[..|checks| - 1]) + [checks[|checks| - 1].id]
  }

  predicate UniqueIds(checks: seq<Check>) {
    forall i, j :: 0 <= i < j < |checks| ==> checks[i].id != checks[j].id
  }

  /** The last check with the id. */
  function Last(checks: seq<Check>, id: string): Option<Check> {
    if checks == [] then None
    else if checks[|checks| - 1].id == id then Some(checks[|checks| - 1])
    else Last(checks[..|checks| - 1], id)
  }

  lemma {:induction false} IdsAt(checks: seq<Check>)
    ensures |Ids(checks)| == |checks| && forall i :: 0 <= i < |checks| ==> Ids(checks)[i] == checks[i].id
  {
    if checks != [] {
      IdsAt(checks[..|checks| - 1]);
    }
  }

  lemma {:induction false} LastIs(checks: seq<Check>, id: string, i: nat)
    requires UniqueIds(checks) && i < |checks| && checks[i].id == id
    ensures Last(checks, id) == Some(checks[i])
  {
    if i < |checks| - 1 {
      LastIs(checks[..|checks| - 1], id, i);
    }
  }

  lemma {:induction false} LastIsNone(checks: seq<Check>, id: string)
    requires forall i :: 0 <= i < |checks| ==> checks[i].id != id
    ensures Last(checks, id) == None
  {
    if checks != [] {
      LastIsNone(checks[..|checks| - 1], id);
    }
  }

  lemma AddCheckIds(checks: seq<Check>, check: Check)
    requires UniqueIds(checks)
    ensures UniqueIds(AddCheck(checks, check)) && Ids(checks) <= Ids(AddCheck(checks, check))
  {
    IdsAt(checks);
    IdsAt(AddCheck(checks, check));
  }

  lemma AddCheckDefines(checks: seq<Check>, check: Check, id: string)
    requires UniqueIds(checks)
    ensures Last(AddCheck(checks, check), id) == if check.id == id then Some(check) else Last(checks, id)
  {
    hide Last, Ids;
    var index, after := IndexOf(checks, check.id), AddCheck(checks, check);
    AddCheckIds(checks, check);
    if check.id == id {
      LastIs(after, id, index);
    } else if k :| 0 <= k < |checks| && checks[k].id == id {
      LastIs(checks, id, k);
      LastIs(after, id, k);
    } else {
      LastIsNone(checks, id);
      LastIsNone(after, id);
    }
  }

  /** Added checks keep the ids unique and those there were in their order, and the last of an id is the one that stands. */
  lemma {:induction false} AddedChecks(checks: seq<Check>, added: seq<Check>, id: string)
    requires UniqueIds(checks)
    ensures UniqueIds(AddChecks(checks, added)) && Ids(checks) <= Ids(AddChecks(checks, added))
    ensures Last(AddChecks(checks, added), id) == if Last(added, id).Some? then Last(added, id) else Last(checks, id)
  {
    if added != [] {
      AddedChecks(checks, added[..|added| - 1], id);
      AddCheckIds(AddChecks(checks, added[..|added| - 1]), added[|added| - 1]);
      AddCheckDefines(AddChecks(checks, added[..|added| - 1]), added[|added| - 1], id);
    }
  }

  /** The checks of a condition: unique, the scene's own first in its order, each as the last layer that has its id wrote it. */
  lemma {:induction false} ChecksOfCondition(base: Content, layers: seq<Layer>, id: string)
    requires UniqueIds(base.checks)
    ensures var checks := Laid(base, layers).checks;
            && UniqueIds(checks) && Ids(base.checks) <= Ids(checks)
            && Last(checks, id) == if Last(AllChecks(layers), id).Some? then Last(AllChecks(layers), id) else Last(base.checks, id)
  {
    ChecksInOrder(base, layers);
    AddedChecks(base.checks, AllChecks(layers), id);
  }
}
