/** Creating sandboxes in batches, and the registry of the sandboxes of each farm. */
module Sandboxes {
  import opened Common
  import opened Cidrs
  import opened NbCtls
  import opened McastFiles

  /** sandbox_create_args; a sandbox is known by its address. */
  datatype Request = Request(amount: int, batch: int, cidr: Cidr, tag: string)
  datatype Script = Create(ips: seq<nat>) | Cleanup(ips: seq<nat>)

  /** A Python dict: shared by whoever holds it. */
  class Dict {
    var entries: map<nat, string>

    constructor ()
      ensures entries == map[]
    {
      entries := map[];
    }
  }

  function Range(start: nat, n: nat): (r: seq<nat>)
    ensures |r| == n
  {
    seq(n, i requires 0 <= i < n => start + i)
  }

  function Tagged(start: nat, n: nat, tag: string): map<nat, string> {
    map a | a in Range(start, n) :: tag
  }

  /** The addresses of each script. A batch below one makes one script without any, and no more. */
  function BatchesOf(start: nat, amount: int, batch: int): seq<seq<nat>>
    decreases Clamp(amount)
  {
    if amount <= 0 then []
    else if batch < 1 then [[]]
    else
      var n := Min(batch, amount);
      [Range(start, n)] + BatchesOf(start + n, amount - n, batch)
  }

  function Produced(amount: int, batch: int): nat {
    if batch < 1 then 0 else Clamp(amount)
  }

  function Creates(batches: seq<seq<nat>>): seq<Script> {
    seq(|batches|, i requires 0 <= i < |batches| => Create(batches[i]))
  }

  /** One script per batch, but only where sandboxes are made over SSH. */
  function ScriptsOf(req: Request, via: InstallMethod): seq<Script> {
    if via == SandboxMethod then Creates(BatchesOf(req.cidr.ip, req.amount, req.batch)) else []
  }

  /** The scripts still to come once i sandboxes are made. */
  function ScriptsFrom(req: Request, i: nat, via: InstallMethod): seq<Script> {
    if via == SandboxMethod then Creates(BatchesOf(req.cidr.ip + i, req.amount - i, req.batch)) else []
  }

  /** One script, and after the last one nothing is left. */
  lemma BatchDone(req: Request, i: nat, via: InstallMethod, ran: seq<Script>)
    requires i < req.amount
    ensures var n := Clamp(Min(req.batch, req.amount - i));
            var now := ran + if via == SandboxMethod then [Create(Range(req.cidr.ip + i, n))] else [];
            && (req.batch >= 1 ==> now + ScriptsFrom(req, i + n, via) == ran + ScriptsFrom(req, i, via))
            && (req.batch < 1 || i + n == req.amount ==> now == ran + ScriptsFrom(req, i, via))
  {
    var n := Clamp(Min(req.batch, req.amount - i));
    var rest := BatchesOf(req.cidr.ip + i + n, req.amount - i - n, req.batch);
    var all := BatchesOf(req.cidr.ip + i, req.amount - i, req.batch);
    if req.batch >= 1 {
      assert all == [Range(req.cidr.ip + i, n)] + rest;
      hide BatchesOf;
      assert Creates(all) == [Create(Range(req.cidr.ip + i, n))] + Creates(rest);
    } else {
      assert all == [[]] && Range(req.cidr.ip + i, 0) == [];
    }
  }

  /** Which error, if any: `client` and `registered` say whether the farm has a client and a registry. */
  function CreateOutcome(req: Request, via: InstallMethod, controller: bool, client: bool, registered: bool): Option<Error> {
    var end := req.cidr.ip + req.amount;
    if !controller then Some(InvalidConfig)
    else if end < 0 || end >= IPV4_END then Some(AddressOverflow)
    else if !req.cidr.Contains(end) then Some(NetworkTooSmall)
    else if via != Physical && !client then Some(MissingKey)
    else if req.amount > 0 && via == OtherMethod then Some(Exited)
    else if !registered then Some(MissingKey)
    else None
  }

  /** The deployment database and the farms' shells. */
  class Farms {
    const via: InstallMethod
    const controller: bool       // whether the controller's address is known
    const clients: set<string>   // the farms there are clients for
    var sandboxes: map<string, map<nat, string>>
    var log: map<string, seq<Script>>

    constructor (via: InstallMethod, controller: bool, clients: set<string>, sandboxes: map<string, map<nat, string>>)
      ensures this.via == via && this.controller == controller && this.clients == clients
      ensures this.sandboxes == sandboxes && log == map[]
    {
      this.via, this.controller, this.clients := via, controller, clients;
      this.sandboxes := sandboxes;
      log := map[];
    }

    function Ran(farm: string): seq<Script>
      reads this`log
    {
      if farm in log then log[farm] else []
    }

    function Outcome(req: Request, farm: string): Option<Error>
      reads this`sandboxes
    {
      CreateOutcome(req, via, controller, farm in clients, farm in sandboxes)
    }

    method RunOn(farm: string, script: Script)
      modifies this`log
      ensures log == old(log)[farm := old(Ran(farm)) + [script]]
    {
      log := log[farm := Ran(farm) + [script]];
    }

    /** _add_sandbox_resource: what was registered is merged into the caller's dict, which is stored. */
    method AddSandboxResource(farm: string, added: Dict) returns (r: Result<()>)
      modifies this`sandboxes, added
      ensures r == if farm in old(sandboxes) then Success(()) else Failure(MissingKey)
      ensures r.Success? ==> added.entries == old(sandboxes)[farm] + old(added.entries)
      ensures r.Success? ==> sandboxes == old(sandboxes)[farm := added.entries]
      ensures r.Failure? ==> added.entries == old(added.entries)
      ensures sandboxes == ApplyOp(old(sandboxes), Add(farm, old(added.entries)))
    {
      if farm !in sandboxes {
        return Failure(MissingKey);
      }
      ghost var given := added.entries;
      var known := sandboxes[farm];
      var rest := known.Keys + added.entries.Keys;
      while rest != {}
        invariant rest <= known.Keys + given.Keys && sandboxes == old(sandboxes)
        invariant added.entries.Keys == given.Keys + (known.Keys - rest)
        invariant forall a | a in added.entries :: added.entries[a] == if a in given then given[a] else known[a]
        decreases rest
      {
        var a :| a in rest;
        rest := rest - {a};
        if a in added.entries {
          continue;
        }
        added.entries := added.entries[a := known[a]];
      }
      assert added.entries == known + given;
      sandboxes := sandboxes[farm := added.entries];
      return Success(());
    }

    /** _delete_sandbox_resource */
    method DeleteSandboxResource(farm: string, toDelete: seq<nat>) returns (r: Result<()>)
      modifies this`sandboxes
      ensures r == if farm in old(sandboxes) then Success(()) else Failure(MissingKey)
      ensures sandboxes == if farm in old(sandboxes)
                           then old(sandboxes)[farm := Dropped(old(sandboxes)[farm], toDelete)] else old(sandboxes)
      ensures sandboxes == ApplyOp(old(sandboxes), Delete(farm, set a | a in toDelete))
    {
      if farm !in sandboxes {
        return Failure(MissingKey);
      }
      var info := sandboxes[farm];
      for i := 0 to |toDelete|
        invariant info == Dropped(sandboxes[farm], toDelete[..i])
      {
        assert toDelete[..i + 1] == toDelete[..i] + [toDelete[i]];
        info := info - {toDelete[i]};
      }
      assert toDelete[..|toDelete|] == toDelete;
      sandboxes := sandboxes[farm := info];
      return Success(());
    }

    /** _create_sandbox */
    method CreateSandbox(req: Request, farm: string) returns (r: Result<Dict>)
      requires req.cidr.Valid()
      modifies this
      ensures r.Success? <==> old(Outcome(req, farm)) == None
      ensures r.Failure? ==> old(Outcome(req, farm)) == Some(r.error) && sandboxes == old(sandboxes)
      ensures r.Success? ==>
                && fresh(r.value)
                && r.value.entries == old(sandboxes)[farm] + Tagged(req.cidr.ip, Produced(req.amount, req.batch), req.tag)
                && sandboxes == old(sandboxes)[farm := r.value.entries]
      ensures r.Success? ==> Ran(farm) == old(Ran(farm)) + ScriptsOf(req, via)
      ensures forall f | f != farm :: Ran(f) == old(Ran(f))
    {
      hide Cidr.Size, Tagged, ScriptsOf;
      if !controller {
        return Failure(InvalidConfig);
      }
      var end := req.cidr.ip + req.amount;
      if end < 0 || end >= IPV4_END {
        return Failure(AddressOverflow);
      }
      if !req.cidr.Contains(end) {
        return Failure(NetworkTooSmall);
      }
      if via != Physical && farm !in clients {
        return Failure(MissingKey);
      }
      var made := new Dict();
      var ok := MakeSandboxes(req, farm, made);
      if ok.Failure? {
        return Failure(ok.error);
      }
      var added := AddSandboxResource(farm, made);
      if added.Failure? {
        return Failure(added.error);
      }
      return Success(made);
    }

    /** The loop over the batches. */
    method MakeSandboxes(req: Request, farm: string, made: Dict) returns (r: Result<()>)
      requires req.cidr.ip + req.amount <= req.cidr.Last() && made.entries == map[]
      modifies this`log, made
      ensures r == if req.amount > 0 && via == OtherMethod then Failure(Exited) else Success(())
      ensures r.Success? ==> made.entries == Tagged(req.cidr.ip, Produced(req.amount, req.batch), req.tag)
      ensures r.Success? ==> Ran(farm) == old(Ran(farm)) + ScriptsOf(req, via)
      ensures forall f | f != farm :: Ran(f) == old(Ran(f))
    {
      hide Cidr.Size, Cidr.Last, BatchesOf, Tagged, ScriptsOf, Range, Ran;
      var amount, batch, start := req.amount, req.batch, req.cidr.ip;
      var batchLeft, i := Min(batch, amount), 0;
      NothingYet(req, via);
      while i < amount
        invariant batchLeft == Min(batch, amount - i) && 0 <= i && if amount > 0 then i < amount else i == 0
        invariant batch < 1 ==> i == 0
        invariant made.entries == Tagged(start, i, req.tag)
        invariant Ran(farm) + ScriptsFrom(req, i, via) == old(Ran(farm)) + ScriptsOf(req, via)
        invariant forall f | f != farm :: Ran(f) == old(Ran(f))
        invariant i > 0 ==> via != OtherMethod
        decreases amount - i
      {
        ghost var ran := Ran(farm);
        var ok := MakeBatch(req, farm, made, i, batchLeft);
        if !ok {
          return Failure(Exited);
        }
        BatchDone(req, i, via, ran);
        i := i + batchLeft;
        batchLeft := Min(batch, amount - i);
        if batchLeft <= 0 {
          break;
        }
      }
      return Success(());
    }

    /** The farms that can be cleaned up: registered, and reachable where a script is to run. */
    function Cleanable(): set<string>
      reads this`sandboxes
    {
      if via == SandboxMethod then sandboxes.Keys * clients else sandboxes.Keys
    }

    /** _delete_sandbox: by farm, a cleanup script and the registry. */
    method DeleteSandbox(listed: seq<(string, nat)>) returns (r: Result<()>)
      modifies this
      ensures r.Success? <==> forall i | 0 <= i < |listed| :: listed[i].0 in old(Cleanable())
      ensures r.Failure? ==> r.error == MissingKey
      ensures r.Success? ==> sandboxes == Without(old(sandboxes), listed)
      ensures r.Success? ==> forall f :: Ran(f) == old(Ran(f)) + CleanupsOf(listed, f, via)
    {
      hide Without, Dropped, NamesOf, GroupedBy, CleanupsOf, CleanupFor, Ran;
      var farmMap := GroupByFarm(listed);
      FarmsListed(farmMap, listed, Cleanable());
      r := CleanFarms(farmMap);
      if r.Success? {
        AllWithout(old(sandboxes), sandboxes, listed, farmMap);
        CleanupsAre(listed, farmMap, via);
      }
    }

    /** The loop over the farms, in whatever order. */
    method CleanFarms(farmMap: map<string, seq<nat>>) returns (r: Result<()>)
      modifies this
      ensures r == if farmMap.Keys <= old(Cleanable()) then Success(()) else Failure(MissingKey)
      ensures r.Success? ==> sandboxes.Keys == old(sandboxes).Keys
      ensures r.Success? ==> forall f | f in sandboxes ::
                sandboxes[f] == if f in farmMap then Dropped(old(sandboxes)[f], farmMap[f]) else old(sandboxes)[f]
      ensures r.Success? ==> forall f :: Ran(f) == old(Ran(f)) + CleanupFor(farmMap, {}, f, via)
    {
      hide Dropped, CleanupFor, CleanupOf, Ran;
      NoCleanups(farmMap, via);
      assert forall f :: old(Ran(f)) + [] == old(Ran(f));
      var rest := farmMap.Keys;
      while rest != {}
        invariant rest <= farmMap.Keys && sandboxes.Keys == old(sandboxes).Keys
        invariant forall f | f in farmMap && f !in rest :: f in old(Cleanable())
        invariant forall f | f in sandboxes ::
                    sandboxes[f] == if f in farmMap && f !in rest then Dropped(old(sandboxes)[f], farmMap[f]) else old(sandboxes)[f]
        invariant forall f :: Ran(f) == old(Ran(f)) + CleanupFor(farmMap, rest, f, via)
        decreases rest
      {
        var f :| f in rest;
        OneCleanup(farmMap, rest, f, via);
        rest := rest - {f};
        var cleaned := CleanFarm(f, farmMap[f]);
        if cleaned.Failure? {
          return cleaned;
        }
      }
      return Success(());
    }

    method CleanFarm(farm: string, names: seq<nat>) returns (r: Result<()>)
      modifies this
      ensures r == if farm in old(Cleanable()) then Success(()) else Failure(MissingKey)
      ensures r.Success? ==> sandboxes == old(sandboxes)[farm := Dropped(old(sandboxes)[farm], names)]
      ensures r.Success? ==> forall f :: Ran(f) == old(Ran(f)) + if f == farm then CleanupOf(names, via) else []
    {
      hide Dropped;
      assert forall f :: old(Ran(f)) + [] == old(Ran(f));
      if via == SandboxMethod {
        if farm !in clients {
          return Failure(MissingKey);
        }
        RunOn(farm, Cleanup(names));
      }
      r := DeleteSandboxResource(farm, names);
    }

    /** create_and_delete_sandbox: what is deleted is read off the dict the registry was merged into. */
    method CreateAndDelete(req: Request, farm: string) returns (r: Result<()>)
      requires req.cidr.Valid()
      modifies this
      ensures r.Success? <==> old(Outcome(req, farm)) == None
      ensures r.Success? ==> sandboxes == old(sandboxes)[farm := map[]]
      ensures r.Success? ==> (sandboxes == old(sandboxes) <==> old(sandboxes)[farm] == map[])
    {
      hide Tagged, Cidr.Size, ScriptsOf, CleanupsOf;
      var made :- CreateSandbox(req, farm);
      ghost var merged := sandboxes;
      var toDelete: seq<(string, nat)>, rest := [], made.entries.Keys;
      while rest != {}
        invariant sandboxes == merged && rest <= made.entries.Keys && made.entries == merged[farm]
        invariant forall i | 0 <= i < |toDelete| :: toDelete[i].0 == farm
        invariant forall a | a in made.entries && a !in rest :: (farm, a) in toDelete
        decreases rest
      {
        var a :| a in rest;
        rest := rest - {a};
        toDelete := toDelete + [(farm, a)];
      }
      EmptiesFarm(merged, farm, toDelete);
      r := DeleteSandbox(toDelete);
      assert sandboxes == old(sandboxes)[farm := map[]];
      assert sandboxes[farm] == map[];
      if old(sandboxes)[farm] == map[] {
        assert sandboxes == old(sandboxes);
      }
    }

    /** create_sandbox of one iteration */
    method CreateInIteration(args: Request, farm: string, prefix: string, iteration: nat) returns (r: Result<()>)
      requires args.cidr.Valid()
      modifies this
      ensures var req := RequestFor(args, farm, iteration);
              r.Success? <==> req.Some? && old(Outcome(req.value, FarmFor(farm, prefix, iteration))) == None
      ensures r.Failure? ==> sandboxes == old(sandboxes)
      ensures r.Success? ==>
                var req, f := RequestFor(args, farm, iteration).value, FarmFor(farm, prefix, iteration);
                sandboxes == old(sandboxes)[f := old(sandboxes)[f] + Tagged(req.cidr.ip, Produced(req.amount, req.batch), req.tag)]
    {
      hide Tagged, Cidr.Size, ScriptsOf;
      var req := RequestFor(args, farm, iteration);
      if req == None {
        return Failure(AddressOverflow);
      }
      RequestValid(args, farm, iteration);
      var made :- CreateSandbox(req.value, FarmFor(farm, prefix, iteration));
      return Success(());
    }

    /** The addresses from i on, as many as are left in the batch. */
    method MakeBatch(req: Request, farm: string, made: Dict, i: nat, batchLeft: int) returns (ok: bool)
      requires req.cidr.ip + i + batchLeft <= req.cidr.Last() + 1 && made.entries == Tagged(req.cidr.ip, i, req.tag)
      modifies this`log, made
      ensures ok == (via != OtherMethod)
      ensures made.entries == Tagged(req.cidr.ip, i + Clamp(batchLeft), req.tag)
      ensures Ran(farm) == old(Ran(farm))
                           + if via == SandboxMethod then [Create(Range(req.cidr.ip + i, Clamp(batchLeft)))] else []
      ensures forall f | f != farm :: Ran(f) == old(Ran(f))
    {
      hide Cidr.Size, Cidr.Last, Tagged, Range;
      var ips := NextHosts(req.cidr, req.cidr.ip + i, batchLeft);
      TagBatch(made, req.cidr.ip, req.cidr.ip + i, ips, req.tag);
      if via == SandboxMethod {
        RunOn(farm, Create(ips));
      }
      return via == SandboxMethod || via == Docker || via == Physical;
    }

    method TagBatch(made: Dict, ghost start: nat, ghost from: nat, ips: seq<nat>, tag: string)
      requires start <= from && ips == Range(from, |ips|) && made.entries == Tagged(start, from - start, tag)
      modifies made
      ensures made.entries == Tagged(start, from - start + |ips|, tag)
    {
      for k := 0 to |ips|
        invariant made.entries == Tagged(start, from - start + k, tag)
      {
        assert Range(start, from - start + k + 1) == Range(start, from - start + k) + [from + k];
        made.entries := made.entries[ips[k] := tag];
      }
    }
  }

  /** The next n addresses of the iterator, which has them. */
  method NextHosts(cidr: Cidr, start: nat, n: int) returns (ips: seq<nat>)
    requires start + n <= cidr.Last() + 1
    ensures ips == Range(start, Clamp(n))
  {
    hide Cidr.Size, Cidr.Last;
    ips := [];
    var left := n;
    while left > 0
      invariant |ips| == Clamp(n) - Clamp(left) && ips == Range(start, |ips|)
      decreases left
    {
      assert start + |ips| <= cidr.Last();
      ips := ips + [start + |ips|];
      left := left - 1;
    }
  }

  lemma NothingYet(req: Request, via: InstallMethod)
    ensures Tagged(req.cidr.ip, 0, req.tag) == map[]
    ensures ScriptsFrom(req, 0, via) == ScriptsOf(req, via) && (req.amount <= 0 ==> ScriptsOf(req, via) == [])
  {
  }

  // ---- deleting

  /** farm_map: the names listed for a farm, in order. */
  function NamesOf(listed: seq<(string, nat)>, farm: string): seq<nat> {
    if listed == [] then []
    else
      var last := listed[|listed| - 1];
      NamesOf(listed[..|listed| - 1], farm) + if last.0 == farm then [last.1] else []
  }

  function Dropped(known: map<nat, string>, names: seq<nat>): map<nat, string> {
    known - set a | a in names
  }

  function CleanupOf(names: seq<nat>, via: InstallMethod): seq<Script> {
    if via == SandboxMethod then [Cleanup(names)] else []
  }

  /** The script a farm has had once only the farms in `rest` are left. */
  function CleanupFor(farmMap: map<string, seq<nat>>, rest: set<string>, farm: string, via: InstallMethod): seq<Script> {
    if farm in farmMap && farm !in rest then CleanupOf(farmMap[farm], via) else []
  }

  lemma NoCleanups(farmMap: map<string, seq<nat>>, via: InstallMethod)
    ensures forall f :: CleanupFor(farmMap, farmMap.Keys, f, via) == []
  {
  }

  lemma OneCleanup(farmMap: map<string, seq<nat>>, rest: set<string>, farm: string, via: InstallMethod)
    requires farm in rest && rest <= farmMap.Keys
    ensures CleanupFor(farmMap, rest, farm, via) == []
    ensures CleanupFor(farmMap, rest - {farm}, farm, via) == CleanupOf(farmMap[farm], via)
    ensures forall f | f != farm :: CleanupFor(farmMap, rest - {farm}, f, via) == CleanupFor(farmMap, rest, f, via)
  {
  }

  lemma CleanupsAre(listed: seq<(string, nat)>, farmMap: map<string, seq<nat>>, via: InstallMethod)
    requires GroupedBy(farmMap, listed) && forall f | f in farmMap :: farmMap[f] != []
    ensures forall f :: CleanupsOf(listed, f, via) == CleanupFor(farmMap, {}, f, via)
  {
    hide NamesOf, CleanupOf;
  }

  function CleanupsOf(listed: seq<(string, nat)>, farm: string, via: InstallMethod): seq<Script> {
    if NamesOf(listed, farm) == [] then [] else CleanupOf(NamesOf(listed, farm), via)
  }

  /** Cleanup scripts that name every sandbox listed for a farm, and nothing else. */
  ghost predicate CleansUp(scripts: seq<Script>, listed: seq<(string, nat)>, farm: string) {
    && (forall k | 0 <= k < |scripts| :: scripts[k].Cleanup? && forall a | a in scripts[k].ips :: (farm, a) in listed)
    && (forall i | 0 <= i < |listed| && listed[i].0 == farm ::
          exists k :: 0 <= k < |scripts| && scripts[k].Cleanup? && listed[i].1 in scripts[k].ips)
  }

  /** Where sandboxes are deleted over SSH, just those listed are cleaned up on their farm; elsewhere nothing
      is run. */
  lemma CleanupsExact(listed: seq<(string, nat)>, farm: string, via: InstallMethod)
    ensures if via == SandboxMethod then CleansUp(CleanupsOf(listed, farm, via), listed, farm) && |CleanupsOf(listed, farm, via)| <= 1
            else CleanupsOf(listed, farm, via) == []
  {
    var scripts := CleanupsOf(listed, farm, via);
    hide NamesOf;
    if via == SandboxMethod {
      forall k, a | 0 <= k < |scripts| && a in scripts[k].ips
        ensures (farm, a) in listed
      {
        NamesListed(listed, farm, a);
      }
      forall i | 0 <= i < |listed| && listed[i].0 == farm
        ensures exists k :: 0 <= k < |scripts| && scripts[k].Cleanup? && listed[i].1 in scripts[k].ips
      {
        NamesListed(listed, farm, listed[i].1);
        assert (farm, listed[i].1) in listed;
        assert scripts[0].Cleanup?;
      }
    }
  }

  lemma NamesStep(listed: seq<(string, nat)>, i: nat, farm: string)
    requires i < |listed|
    ensures NamesOf(listed[..i + 1], farm) == NamesOf(listed[..i], farm) + if listed[i].0 == farm then [listed[i].1] else []
  {
    assert listed[..i + 1][..i] == listed[..i];
  }

  ghost predicate GroupedBy(farmMap: map<string, seq<nat>>, listed: seq<(string, nat)>) {
    forall f :: NamesOf(listed, f) == if f in farmMap then farmMap[f] else []
  }

  lemma GroupedStep(farmMap: map<string, seq<nat>>, listed: seq<(string, nat)>, i: nat)
    requires i < |listed| && GroupedBy(farmMap, listed[..i])
    ensures var farm := listed[i].0;
            GroupedBy(farmMap[farm := (if farm in farmMap then farmMap[farm] else []) + [listed[i].1]], listed[..i + 1])
  {
    hide NamesOf;
    forall f
      ensures NamesOf(listed[..i + 1], f) == NamesOf(listed[..i], f) + if listed[i].0 == f then [listed[i].1] else []
    {
      NamesStep(listed, i, f);
    }
  }

  method GroupByFarm(listed: seq<(string, nat)>) returns (farmMap: map<string, seq<nat>>)
    ensures GroupedBy(farmMap, listed) && forall f | f in farmMap :: farmMap[f] != []
  {
    farmMap := map[];
    assert forall f :: NamesOf([], f) == [];
    assert listed[..0] == [];
    assert GroupedBy(farmMap, listed[..0]);
    hide NamesOf, GroupedBy;
    for i := 0 to |listed|
      invariant GroupedBy(farmMap, listed[..i]) && forall f | f in farmMap :: farmMap[f] != []
    {
      var farm := listed[i].0;
      GroupedStep(farmMap, listed, i);
      farmMap := farmMap[farm := (if farm in farmMap then farmMap[farm] else []) + [listed[i].1]];
    }
    assert listed[..|listed|] == listed;
  }

  /** The farms of a grouping are the farms listed. */
  lemma FarmsListed(farmMap: map<string, seq<nat>>, listed: seq<(string, nat)>, known: set<string>)
    requires GroupedBy(farmMap, listed) && forall f | f in farmMap :: farmMap[f] != []
    ensures farmMap.Keys <= known <==> forall i | 0 <= i < |listed| :: listed[i].0 in known
  {
    hide NamesOf;
    forall i | 0 <= i < |listed|
      ensures listed[i].0 in farmMap
    {
      NamesListed(listed, listed[i].0, listed[i].1);
    }
    forall f | f in farmMap
      ensures exists i :: 0 <= i < |listed| && listed[i].0 == f
    {
      NamesListed(listed, f, farmMap[f][0]);
      assert (f, farmMap[f][0]) in listed;
    }
  }

  /** The registry without the sandboxes listed. */
  function Without(registry: map<string, map<nat, string>>, listed: seq<(string, nat)>): map<string, map<nat, string>> {
    map f | f in registry :: map a | a in registry[f] && (f, a) !in listed :: registry[f][a]
  }

  lemma {:induction false} NamesListed(listed: seq<(string, nat)>, farm: string, a: nat)
    ensures a in NamesOf(listed, farm) <==> (farm, a) in listed
  {
    if listed == [] {
    } else {
      var n := |listed| - 1;
      NamesListed(listed[..n], farm, a);
      assert listed == listed[..n] + [listed[n]];
    }
  }

  lemma AllWithout(was: map<string, map<nat, string>>, now: map<string, map<nat, string>>,
                   listed: seq<(string, nat)>, farmMap: map<string, seq<nat>>)
    requires now.Keys == was.Keys
    requires GroupedBy(farmMap, listed)
    requires forall f | f in now :: now[f] == if f in farmMap then Dropped(was[f], farmMap[f]) else was[f]
    ensures now == Without(was, listed)
  {
    hide Dropped, NamesOf;
    forall f | f in was
      ensures now[f] == Without(was, listed)[f]
    {
      FarmWithout(was, listed, f);
      NothingDropped(was[f]);
    }
  }

  lemma FarmWithout(was: map<string, map<nat, string>>, listed: seq<(string, nat)>, f: string)
    requires f in was
    ensures Without(was, listed)[f] == Dropped(was[f], NamesOf(listed, f))
  {
    hide NamesOf;
    forall a | a in was[f]
      ensures a in NamesOf(listed, f) <==> (f, a) in listed
    {
      NamesListed(listed, f, a);
    }
  }

  lemma NothingDropped(known: map<nat, string>)
    ensures Dropped(known, []) == known
  {
  }

  lemma EmptiesFarm(registry: map<string, map<nat, string>>, farm: string, listed: seq<(string, nat)>)
    requires farm in registry && forall i | 0 <= i < |listed| :: listed[i].0 == farm
    requires forall a | a in registry[farm] :: (farm, a) in listed
    ensures Without(registry, listed) == registry[farm := map[]]
  {
    forall f | f in registry && f != farm
      ensures Without(registry, listed)[f] == registry[f]
    {
    }
  }

  // ---- the batches and the windows

  lemma RangeSplit(start: nat, m: nat, n: nat)
    ensures Range(start, m) + Range(start + m, n) == Range(start, m + n)
  {
  }

  /** What an iteration asks for: a given farm gets the request as configured, under its own name; otherwise
      the farm's name ends in the iteration's number, so no two iterations share one, and only the address
      moves. */
  lemma IterationAsks(args: Request, farm: string, prefix: string, iteration: nat)
    ensures farm != "" ==> FarmFor(farm, prefix, iteration) == farm && RequestFor(args, farm, iteration) == Some(args)
    ensures farm == "" ==>
              var name := FarmFor(farm, prefix, iteration);
              && |prefix| < |name| && name[..|prefix|] == prefix && Digits(name[|prefix|..]) && Value(name[|prefix|..]) == iteration
    ensures farm == "" && RequestFor(args, farm, iteration).Some? ==>
              var req := RequestFor(args, farm, iteration).value;
              && req.cidr.ip == args.cidr.ip + iteration * args.amount + 1 && req.cidr.len == args.cidr.len
              && req == args.(cidr := req.cidr)
  {
    if farm == "" {
      DecReadsBack(iteration);
      assert FarmFor(farm, prefix, iteration)[|prefix|..] == Dec(iteration);
    }
  }

  /** What is registered then: the new addresses in a row, with the tag, and what was there before. */
  lemma RegisteredAre(known: map<nat, string>, start: nat, amount: int, batch: int, tag: string, a: nat)
    requires batch >= 1
    ensures var now := known + Tagged(start, Produced(amount, batch), tag);
            && (a in now <==> a in known || start <= a < start + amount)
            && (start <= a < start + amount ==> now[a] == tag)
            && (a in now && !(start <= a < start + amount) ==> now[a] == known[a])
  {
    var r := Range(start, Produced(amount, batch));
    if start <= a < start + amount {
      assert r[a - start] == a;
    }
  }

  /** The scripts make exactly the requested addresses, in order ... */
  lemma {:induction false} BatchesMakeAll(start: nat, amount: int, batch: int)
    ensures Flatten(BatchesOf(start, amount, batch)) == Range(start, Produced(amount, batch))
    decreases Clamp(amount)
  {
    if amount <= 0 {
    } else if batch < 1 {
    } else {
      var n := Min(batch, amount);
      BatchesMakeAll(start + n, amount - n, batch);
      FirstBatch(start, amount, batch);
      hide BatchesOf, Range;
      FlattenConcat([Range(start, n)], BatchesOf(start + n, amount - n, batch));
      FlattenOne(Range(start, n));
      RangeSplit(start, n, Clamp(amount - n));
    }
  }

  /** So what is created over SSH is what is registered; elsewhere no script makes any. */
  lemma ScriptsMake(req: Request, via: InstallMethod)
    ensures var scripts := ScriptsOf(req, via);
            && (via != SandboxMethod ==> scripts == [])
            && (forall k | 0 <= k < |scripts| :: scripts[k].Create?)
            && (via == SandboxMethod ==>
                  Flatten(seq(|scripts|, k requires 0 <= k < |scripts| => scripts[k].ips))
                  == Range(req.cidr.ip, Produced(req.amount, req.batch)))
  {
    var scripts, batches := ScriptsOf(req, via), BatchesOf(req.cidr.ip, req.amount, req.batch);
    if via == SandboxMethod {
      BatchesMakeAll(req.cidr.ip, req.amount, req.batch);
      hide BatchesOf, Range;
      assert seq(|scripts|, k requires 0 <= k < |scripts| => scripts[k].ips) == batches;
    }
  }

  lemma FirstBatch(start: nat, amount: int, batch: int)
    requires amount > 0 && batch >= 1
    ensures var n := Min(batch, amount);
            BatchesOf(start, amount, batch) == [Range(start, n)] + BatchesOf(start + n, amount - n, batch)
  {
  }

  lemma FlattenOne(x: seq<nat>)
    ensures Flatten([x]) == x
  {
    assert Flatten([x]) == x + Flatten([]);
  }

  /** ... none of them empty or with more than a batch, and all but the last with a full one. */
  lemma {:induction false} BatchSizes(start: nat, amount: int, batch: int, k: nat)
    requires batch >= 1 && k < |BatchesOf(start, amount, batch)|
    ensures 0 < |BatchesOf(start, amount, batch)[k]| <= batch
    ensures k + 1 < |BatchesOf(start, amount, batch)| ==> |BatchesOf(start, amount, batch)[k]| == batch
    decreases k
  {
    var n := Min(batch, amount);
    FirstBatch(start, amount, batch);
    if k == 0 {
    } else {
      BatchSizes(start + n, amount - n, batch, k - 1);
    }
  }

  /** There are as many batches as the ceiling of the quotient; a batch below one makes one, empty. */
  lemma {:induction false} BatchCount(start: nat, amount: int, batch: int)
    ensures batch >= 1 ==> |BatchesOf(start, amount, batch)| == (Clamp(amount) + batch - 1) / batch
    ensures batch < 1 ==> |BatchesOf(start, amount, batch)| == if amount > 0 then 1 else 0
    decreases Clamp(amount)
  {
    if batch < 1 {
    } else if amount <= 0 {
      DivModUnique(batch - 1, batch, 0, batch - 1);
    } else {
      var n := Min(batch, amount);
      BatchCount(start + n, amount - n, batch);
      DivBack(amount + batch - 1, batch);
      if amount <= batch {
        DivModUnique(batch - 1, batch, 0, batch - 1);
        DivModUnique(amount - 1, batch, 0, amount - 1);
      }
    }
  }

  /** The multiple of n at or below a. */
  function FloorTo(a: nat, n: nat): (r: nat)
    requires n > 0
    ensures r <= a < r + n && r % n == 0 && r == a - a % n
  {
    assert a == n * (a / n) + a % n;
    DivModUnique(a - a % n, n, a / n, 0);
    a - a % n
  }

  /** IPNetwork(a/len) */
  function Rebased(cidr: Cidr, a: nat): Cidr {
    Cidr(a, FloorTo(a, cidr.Size()), cidr.len)
  }

  function WindowStart(args: Request, iteration: nat): int {
    args.cidr.ip + iteration * args.amount + 1
  }

  /** A given farm gets the request as it is; otherwise the addresses move on with the iteration. */
  function RequestFor(args: Request, farm: string, iteration: nat): Option<Request> {
    if farm != "" then Some(args)
    else
      var a := WindowStart(args, iteration);
      if a < 0 || a >= IPV4_END then None else Some(args.(cidr := Rebased(args.cidr, a)))
  }

  function FarmFor(farm: string, prefix: string, iteration: nat): string {
    if farm != "" then farm else prefix + Dec(iteration)
  }

  lemma RequestValid(args: Request, farm: string, iteration: nat)
    requires args.cidr.Valid() && RequestFor(args, farm, iteration).Some?
    ensures RequestFor(args, farm, iteration).value.cidr.Valid()
  {
    if farm == "" {
      RebasedValid(args.cidr, WindowStart(args, iteration));
    }
  }

  lemma SizeDivides(len: nat)
    requires len <= 32
    ensures IPV4_END == Pow2(len) * Pow2(32 - len)
    decreases len
  {
    if len == 0 {
      assert Pow2(8) == 0x100;
      assert Pow2(16) == 0x1_0000;
      assert Pow2(24) == 0x100_0000;
      assert Pow2(32) == 0x1_0000_0000;
    } else {
      SizeDivides(len - 1);
      Doubling(Pow2(len - 1), Pow2(32 - len));
    }
  }

  lemma Doubling(a: nat, b: nat)
    ensures a * (2 * b) == (2 * a) * b
  {
  }

  lemma NextBelow(base: nat, size: nat, end: nat, blocks: nat)
    requires size > 0 && base % size == 0 && end == blocks * size && base < end
    ensures base + size <= end
  {
    var q := base / size;
    assert base == size * q;
    assert end - base == size * (blocks - q);
    FactorGrows(size, blocks - q);
  }

  lemma RebasedValid(cidr: Cidr, a: nat)
    requires cidr.Valid() && a < IPV4_END
    ensures Rebased(cidr, a).Valid()
  {
    SizeDivides(cidr.len);
    hide Pow2;
    NextBelow(FloorTo(a, cidr.Size()), cidr.Size(), IPV4_END, Pow2(cidr.len));
  }

  /** An iteration's window fits exactly when it does not run into the last address of whatever network
      of that size it starts in. */
  lemma WindowFitsIff(args: Request, iteration: nat)
    requires args.cidr.Valid() && args.amount >= 0 && WindowStart(args, iteration) < IPV4_END
    ensures RequestFor(args, "", iteration).Some?
    ensures var req, size := RequestFor(args, "", iteration).value, args.cidr.Size();
            CreateOutcome(req, SandboxMethod, true, true, true) == None <==> WindowStart(args, iteration) % size + args.amount < size
  {
    WindowAfter(args, iteration);
    RequestValid(args, "", iteration);
    hide Pow2;
  }

  lemma WindowAfter(args: Request, iteration: nat)
    requires args.amount >= 0
    ensures WindowStart(args, iteration) >= args.cidr.ip + 1
  {
  }

  /** The windows follow each other without a gap, so no two iterations make the same sandbox; the address
      that was written is skipped. */
  lemma WindowsTile(args: Request, i: nat, j: nat)
    requires args.amount >= 0 && i < j
    ensures WindowStart(args, 0) == args.cidr.ip + 1
    ensures WindowStart(args, i + 1) == WindowStart(args, i) + args.amount
    ensures WindowStart(args, i) + Produced(args.amount, args.batch) <= WindowStart(args, j)
  {
    MulSucc(args.amount, i);
    MulOrder(i, j, args.amount);
  }

  /** Of an accepted iteration, every address is in the network that was configured exactly when the
      window's end, which a caller can compute, is: the check itself is against the network of that size
      that the window happens to start in. */
  lemma WindowInsideIff(args: Request, iteration: nat, via: InstallMethod)
    requires args.cidr.Valid() && args.amount > 0 && RequestFor(args, "", iteration).Some?
    requires CreateOutcome(RequestFor(args, "", iteration).value, via, true, true, true) == None
    ensures (forall a: int | WindowStart(args, iteration) <= a < WindowStart(args, iteration) + args.amount ::
               args.cidr.Contains(a))
            <==> args.cidr.ip + (iteration + 1) * args.amount + 1 <= args.cidr.Last()
  {
    var a, size := WindowStart(args, iteration), args.cidr.Size();
    MulSucc(args.amount, iteration);
    WindowAfter(args, iteration);
    hide Pow2, WindowStart;
    var own := RequestFor(args, "", iteration).value.cidr;
    assert own.Contains(a + args.amount) && own.base == FloorTo(a, size);
    if args.cidr.Contains(a) {
      SameBlock(args.cidr.base, a, size);
    }
    assert args.cidr.Contains(a + args.amount - 1) ==> a + args.amount <= args.cidr.Last() + 1;
  }

  /** An address of a block has that block's start. */
  lemma SameBlock(base: nat, a: nat, size: nat)
    requires size > 0 && base % size == 0 && base <= a < base + size
    ensures FloorTo(a, size) == base
  {
    assert base == base / size * size;
    DivModUnique(a, size, base / size, a - base);
  }

  /** For instance: three iterations of a hundred leave a /24. */
  lemma WindowLeavesNetwork()
    ensures var args := Request(100, 10, Cidr(0x0A00_0000, 0x0A00_0000, 24), "");
            && args.cidr.Valid() && !args.cidr.Contains(WindowStart(args, 3))
            && RequestFor(args, "", 3).Some?
            && CreateOutcome(RequestFor(args, "", 3).value, SandboxMethod, true, true, true) == None
  {
    assert Pow2(8) == 256;
  }

  // ---- the registry over a run

  datatype Op = Add(farm: string, made: map<nat, string>) | Delete(farm: string, names: set<nat>)

  predicate Touches(op: Op, farm: string, a: nat) {
    op.farm == farm && if op.Add? then a in op.made else a in op.names
  }

  /** What the two resource methods do to the registry; an unknown farm raises and changes nothing. */
  function ApplyOp(registry: map<string, map<nat, string>>, op: Op): map<string, map<nat, string>> {
    if op.farm !in registry then registry
    else if op.Add? then registry[op.farm := registry[op.farm] + op.made]
    else registry[op.farm := registry[op.farm] - op.names]
  }

  function ApplyOps(registry: map<string, map<nat, string>>, ops: seq<Op>): map<string, map<nat, string>> {
    if ops == [] then registry
    else ApplyOp(ApplyOps(registry, ops[..|ops| - 1]), ops[|ops| - 1])
  }

  /** Whatever the run, a sandbox that no operation names is registered as before ... */
  lemma {:induction false} NeverTouched(registry: map<string, map<nat, string>>, ops: seq<Op>, farm: string, a: nat)
    requires farm in registry && forall j | 0 <= j < |ops| :: !Touches(ops[j], farm, a)
    ensures ApplyOps(registry, ops).Keys == registry.Keys
    ensures a in ApplyOps(registry, ops)[farm] <==> a in registry[farm]
    ensures a in registry[farm] ==> ApplyOps(registry, ops)[farm][a] == registry[farm][a]
  {
    if ops == [] {
    } else {
      var n := |ops| - 1;
      var before := ApplyOps(registry, ops[..n]);
      NeverTouched(registry, ops[..n], farm, a);
      Untouched(before, ops[n], farm, a);
    }
  }

  lemma Untouched(registry: map<string, map<nat, string>>, op: Op, farm: string, a: nat)
    requires farm in registry
    ensures ApplyOp(registry, op).Keys == registry.Keys
    ensures !Touches(op, farm, a) ==>
              (a in ApplyOp(registry, op)[farm] <==> a in registry[farm])
              && (a in registry[farm] ==> ApplyOp(registry, op)[farm][a] == registry[farm][a])
    ensures Touches(op, farm, a) ==>
              (a in ApplyOp(registry, op)[farm] <==> op.Add?)
              && (op.Add? ==> ApplyOp(registry, op)[farm][a] == op.made[a])
  {
  }

  /** ... and any other as the last operation that names it left it. */
  lemma {:induction false} LastTouch(registry: map<string, map<nat, string>>, ops: seq<Op>, farm: string, a: nat, i: nat)
    requires farm in registry && i < |ops| && Touches(ops[i], farm, a)
    requires forall j | i < j < |ops| :: !Touches(ops[j], farm, a)
    ensures ApplyOps(registry, ops).Keys == registry.Keys
    ensures a in ApplyOps(registry, ops)[farm] <==> ops[i].Add?
    ensures ops[i].Add? ==> ApplyOps(registry, ops)[farm][a] == ops[i].made[a]
  {
    hide ApplyOp;
    var n := |ops| - 1;
    SameFarms(registry, ops[..n]);
    Untouched(ApplyOps(registry, ops[..n]), ops[n], farm, a);
    if i == n {
    } else {
      LastTouch(registry, ops[..n], farm, a, i);
    }
  }

  lemma {:induction false} SameFarms(registry: map<string, map<nat, string>>, ops: seq<Op>)
    ensures ApplyOps(registry, ops).Keys == registry.Keys
  {
    if ops == [] {
    } else {
      SameFarms(registry, ops[..|ops| - 1]);
    }
  }
}
