/** The registry of supervisors (`process/manager.py`): one table from
    account number to supervisor, shared by the whole plugin, with the
    operations that register, unregister, list, save and load accounts.

    The table is a `map` plus the order its keys were inserted in, which is
    the order Python's dictionary lists its values in. Saving and loading
    go through a `StoreCodec`: the JSON writer and reader of the accounts
    store, the legacy unpickler and the zlib decompressor. */
module Manager {
  import opened Wrappers
  import opened Exceptions
  import opened Accounts
  import opened ProcessModels
  import opened AccountFiles
  import opened Process

  const ACCOUNTS_SAVE_PATH: Path := BinaryDirFile("accounts.json")
  const ACCOUNTS_LEGACY_SAVE_PATH: Path := BinaryDirFile("accounts.pkl")

  /** The key `add` files a process under: the given uin when it is truthy,
      otherwise the process's own account number. */
  function RegistrationKey(uin: Option<int>, own: int): (k: int)
    ensures uin.Some? && uin.value != 0 ==> k == uin.value
    ensures uin.None? || uin == Some(0) ==> k == own
  {
    if uin.Some? && uin.value != 0 then uin.value else own
  }

  /** No key occurs twice. */
  predicate Distinct(s: seq<int>) {
    forall i, j :: 0 <= i < j < |s| ==> s[i] != s[j]
  }

  /** The keys of `s` other than `x`, in order. */
  function Without(s: seq<int>, x: int): (r: seq<int>)
    ensures forall y :: y in r <==> y in s && y != x
    ensures Distinct(s) ==> Distinct(r)
  {
    if s == [] then []
    else
      assert Distinct(s) ==> Distinct(s[1..]) && s[0] !in s[1..];
      if s[0] == x then Without(s[1..], x)
      else [s[0]] + Without(s[1..], x)
  }

  /** The processes of `keys`, in order, keeping the predefined ones only
      when `include` holds. */
  function Select(keys: seq<int>, table: map<int, GoCQProcess>, withPredefined: bool): (r: seq<GoCQProcess>)
    requires forall k :: k in keys ==> k in table
    ensures forall k :: k in keys ==> (table[k] in r <==> withPredefined || !table[k].predefined)
    ensures forall p :: p in r ==> (exists k :: k in keys && table[k] == p) && (withPredefined || !p.predefined)
    ensures withPredefined ==> |r| == |keys|
  {
    if keys == [] then []
    else
      var k0 := keys[0];
      assert k0 in keys;
      var rest := Select(keys[1..], table, withPredefined);
      var p := table[k0];
      if withPredefined || !p.predefined then [p] + rest else rest
  }

  /** `r` lists, in the order of `keys`, the supervisors filed under the
      keys the filter keeps: `idx` gives the position in `keys` of each
      entry of `r`, rising strictly, and holds every kept position. */
  ghost predicate OrderedFilter(r: seq<GoCQProcess>, keys: seq<int>, table: map<int, GoCQProcess>,
                                withPredefined: bool, idx: seq<nat>)
  {
    |idx| == |r| && Entries(r, keys, table, idx) && Rising(idx) && KeepsAll(keys, table, withPredefined, idx)
  }

  /** Entry `i` of `r` is the supervisor filed under key `idx[i]` of `keys`. */
  ghost predicate Entries(r: seq<GoCQProcess>, keys: seq<int>, table: map<int, GoCQProcess>, idx: seq<nat>)
    requires |idx| == |r|
  {
    forall i :: 0 <= i < |idx| ==> idx[i] < |keys| && keys[idx[i]] in table && r[i] == table[keys[idx[i]]]
  }

  ghost predicate Rising(idx: seq<nat>) {
    forall i, j :: 0 <= i < j < |idx| ==> idx[i] < idx[j]
  }

  /** `idx` holds exactly the positions whose supervisor the filter keeps. */
  ghost predicate KeepsAll(keys: seq<int>, table: map<int, GoCQProcess>, withPredefined: bool, idx: seq<nat>) {
    forall k :: 0 <= k < |keys| ==> (k in idx <==> keys[k] in table && (withPredefined || !table[keys[k]].predefined))
  }

  /** `Select` keeps the order of `keys` and leaves out no kept key. */
  lemma {:induction false} SelectPositions(keys: seq<int>, table: map<int, GoCQProcess>, withPredefined: bool)
    requires forall k :: k in keys ==> k in table
    ensures exists idx :: OrderedFilter(Select(keys, table, withPredefined), keys, table, withPredefined, idx)
  {
    if keys == [] {
      assert Select(keys, table, withPredefined) == [];
      assert OrderedFilter([], keys, table, withPredefined, []);
    } else {
      var tail := keys[1..];
      assert forall k :: k in tail ==> k in keys;
      SelectPositions(tail, table, withPredefined);
      var rest :| OrderedFilter(Select(tail, table, withPredefined), tail, table, withPredefined, rest);
      var k0 := keys[0];
      assert k0 in keys;
      var keep := withPredefined || !table[k0].predefined;
      assert Select(keys, table, withPredefined)
          == if keep then [table[k0]] + Select(tail, table, withPredefined) else Select(tail, table, withPredefined);
      PositionsCons(keys, table, withPredefined, Select(keys, table, withPredefined), Select(tail, table, withPredefined), rest);
    }
  }

  /** The positions for `keys[1..]`, shifted by one, behind position 0 when
      the supervisor under `keys[0]` is kept. */
  lemma PositionsCons(keys: seq<int>, table: map<int, GoCQProcess>, withPredefined: bool,
                      r: seq<GoCQProcess>, rr: seq<GoCQProcess>, rest: seq<nat>)
    requires |keys| > 0 && keys[0] in table
    requires r == if withPredefined || !table[keys[0]].predefined then [table[keys[0]]] + rr else rr
    requires OrderedFilter(rr, keys[1..], table, withPredefined, rest)
    ensures exists idx :: OrderedFilter(r, keys, table, withPredefined, idx)
  {
    var h := if withPredefined || !table[keys[0]].predefined then 1 else 0;
    var idx := (if h == 1 then [0] else []) + seq(|rest|, i requires 0 <= i < |rest| => rest[i] + 1);
    StepEntries(keys, table, r, rr, rest, h, idx);
    StepRising(rest, h, idx);
    StepKeepsAll(keys, table, withPredefined, rest, h, idx);
    assert OrderedFilter(r, keys, table, withPredefined, idx);
  }

  lemma StepEntries(keys: seq<int>, table: map<int, GoCQProcess>, r: seq<GoCQProcess>, rr: seq<GoCQProcess>,
                    rest: seq<nat>, h: nat, idx: seq<nat>)
    requires |keys| > 0 && keys[0] in table && h <= 1
    requires |rest| == |rr| && Entries(rr, keys[1..], table, rest)
    requires r == if h == 1 then [table[keys[0]]] + rr else rr
    requires idx == (if h == 1 then [0] else []) + seq(|rest|, i requires 0 <= i < |rest| => rest[i] + 1)
    ensures |idx| == |r| && Entries(r, keys, table, idx)
  {
    forall i | 0 <= i < |idx|
      ensures idx[i] < |keys| && keys[idx[i]] in table && r[i] == table[keys[idx[i]]]
    {
      if i >= h {
        assert idx[i] == rest[i - h] + 1 && r[i] == rr[i - h];
        assert keys[idx[i]] == keys[1..][rest[i - h]];
      }
    }
  }

  lemma StepRising(rest: seq<nat>, h: nat, idx: seq<nat>)
    requires Rising(rest) && h <= 1
    requires idx == (if h == 1 then [0] else []) + seq(|rest|, i requires 0 <= i < |rest| => rest[i] + 1)
    ensures Rising(idx)
  {
    forall i, j | 0 <= i < j < |idx|
      ensures idx[i] < idx[j]
    {
      assert idx[j] == rest[j - h] + 1;
      if i >= h {
        assert idx[i] == rest[i - h] + 1;
      }
    }
  }

  lemma StepKeepsAll(keys: seq<int>, table: map<int, GoCQProcess>, withPredefined: bool,
                     rest: seq<nat>, h: nat, idx: seq<nat>)
    requires |keys| > 0 && keys[0] in table
    requires h == if withPredefined || !table[keys[0]].predefined then 1 else 0
    requires KeepsAll(keys[1..], table, withPredefined, rest)
    requires idx == (if h == 1 then [0] else []) + seq(|rest|, i requires 0 <= i < |rest| => rest[i] + 1)
    ensures KeepsAll(keys, table, withPredefined, idx)
  {
    forall k | 0 <= k < |keys|
      ensures k in idx <==> keys[k] in table && (withPredefined || !table[keys[k]].predefined)
    {
      if k > 0 {
        assert keys[k] == keys[1..][k - 1];
        if k - 1 in rest {
          var i :| 0 <= i < |rest| && rest[i] == k - 1;
          assert idx[h + i] == k;
        }
        if k in idx {
          var i :| 0 <= i < |idx| && idx[i] == k;
          assert i >= h && rest[i - h] == k - 1;
        }
      } else if 0 in idx {
        var i :| 0 <= i < |idx| && idx[i] == 0;
        assert i < h;
      }
    }
  }

  /** With distinct keys, each filed under a supervisor of its own number,
      `Select` lists every supervisor once. */
  lemma SelectOnceEach(keys: seq<int>, table: map<int, GoCQProcess>, withPredefined: bool)
    requires forall k :: k in keys ==> k in table
    requires Distinct(keys)
    requires forall u :: u in table ==> table[u].account.uin == u
    ensures var r := Select(keys, table, withPredefined);
            forall i, j :: 0 <= i < j < |r| ==> r[i] != r[j]
  {
    var r := Select(keys, table, withPredefined);
    SelectPositions(keys, table, withPredefined);
    var idx :| OrderedFilter(r, keys, table, withPredefined, idx);
    forall i, j | 0 <= i < j < |r|
      ensures r[i] != r[j]
    {
      assert keys[idx[i]] != keys[idx[j]];
    }
  }

  /** The accounts of a list of supervisors. */
  function AccountsOf(ps: seq<GoCQProcess>): (r: seq<AccountConfig>)
    ensures |r| == |ps| && forall i :: 0 <= i < |ps| ==> r[i] == ps[i].account
  {
    seq(|ps|, i requires 0 <= i < |ps| => ps[i].account)
  }

  /** The account numbers of a list of accounts. */
  function Uins(accounts: seq<AccountConfig>): (r: seq<int>)
    ensures |r| == |accounts| && forall i :: 0 <= i < |accounts| ==> r[i] == accounts[i].uin
  {
    seq(|accounts|, i requires 0 <= i < |accounts| => accounts[i].uin)
  }

  /** The failure the constructor's registration raises for `uin` when the
      given keys are registered, if any: the account number 0 makes `add`
      read the account of a supervisor that has none yet, and a registered
      number is a duplicate. */
  function CreateFailure(uin: int, present: set<int>): (f: Option<Failure>)
    ensures f.None? <==> uin != 0 && uin !in present
    ensures uin != 0 && uin in present ==> f == Some(Fail(AccountAlreadyExists))
  {
    if uin == 0 then Some(AttributeError)
    else if uin in present then Some(Fail(AccountAlreadyExists))
    else None
  }

  /** What a loader does with a list of accounts: the accounts it creates
      supervisors for, in order, and the failure that stopped it, if any. */
  datatype LoadPlan = LoadPlan(created: seq<AccountConfig>, stopped: Option<Failure>)

  /** The loaders' loop over `accounts` with the keys `present` registered:
      with `ignoreLoaded` a registered number is skipped, including one
      registered earlier in the same loop; otherwise every account is
      created, and the first failure ends the loop. */
  function Plan(accounts: seq<AccountConfig>, present: set<int>, ignoreLoaded: bool): (p: LoadPlan)
    ensures forall i :: 0 <= i < |p.created| ==> p.created[i] in accounts
    ensures forall i :: 0 <= i < |p.created| ==> p.created[i].uin != 0 && p.created[i].uin !in present
    ensures Distinct(Uins(p.created))
    decreases |accounts|
  {
    if accounts == [] then LoadPlan([], None)
    else
      var a := accounts[0];
      if ignoreLoaded && a.uin in present then Plan(accounts[1..], present, ignoreLoaded)
      else match CreateFailure(a.uin, present)
        case Some(f) => LoadPlan([], Some(f))
        case None =>
          var rest := Plan(accounts[1..], present + {a.uin}, ignoreLoaded);
          assert forall i :: 0 <= i < |rest.created| ==> rest.created[i].uin != a.uin;
          Join([a], rest)
  }

  /** `created` followed by what a later part of the loop creates. */
  function Join(created: seq<AccountConfig>, rest: LoadPlan): (p: LoadPlan)
    ensures p.created == created + rest.created && p.stopped == rest.stopped
  {
    LoadPlan(created + rest.created, rest.stopped)
  }

  /** With `ignoreLoaded` a registered number never stops the loop: only the
      account number 0 can. */
  lemma {:induction false} IgnoreLoadedSkipsRegistered(accounts: seq<AccountConfig>, present: set<int>)
    ensures var p := Plan(accounts, present, true);
            p.stopped.None? || p.stopped == Some(AttributeError)
    ensures (forall i :: 0 <= i < |accounts| ==> accounts[i].uin != 0) ==> Plan(accounts, present, true).stopped.None?
    decreases |accounts|
  {
    if accounts != [] {
      var a := accounts[0];
      assert forall i :: 0 <= i < |accounts[1..]| ==> accounts[1..][i] == accounts[i + 1];
      if a.uin in present {
        IgnoreLoadedSkipsRegistered(accounts[1..], present);
      } else if a.uin != 0 {
        IgnoreLoadedSkipsRegistered(accounts[1..], present + {a.uin});
      }
    }
  }

  /** Without `ignoreLoaded`, accounts with distinct nonzero numbers none of
      which is registered are all created, in order. */
  lemma {:induction false} FreshAccountsAreAllCreated(accounts: seq<AccountConfig>, present: set<int>, ignoreLoaded: bool)
    requires Distinct(Uins(accounts))
    requires forall i :: 0 <= i < |accounts| ==> accounts[i].uin != 0 && accounts[i].uin !in present
    ensures Plan(accounts, present, ignoreLoaded) == LoadPlan(accounts, None)
    decreases |accounts|
  {
    if accounts != [] {
      var a := accounts[0];
      var rest := accounts[1..];
      FreshRest(accounts, present);
      FreshAccountsAreAllCreated(rest, present + {a.uin}, ignoreLoaded);
      assert [a] + rest == accounts;
    }
  }

  /** After creating the first of distinct fresh accounts, the others are
      still distinct and fresh. */
  lemma FreshRest(accounts: seq<AccountConfig>, present: set<int>)
    requires accounts != [] && Distinct(Uins(accounts))
    requires forall i :: 0 <= i < |accounts| ==> accounts[i].uin != 0 && accounts[i].uin !in present
    ensures var rest := accounts[1..];
            && Distinct(Uins(rest))
            && forall i :: 0 <= i < |rest| ==> rest[i].uin != 0 && rest[i].uin !in present + {accounts[0].uin}
  {
    var a := accounts[0];
    var rest := accounts[1..];
    assert forall i :: 0 <= i < |rest| ==> rest[i] == accounts[i + 1];
    assert Uins(rest) == Uins(accounts)[1..];
    forall i | 0 <= i < |rest|
      ensures rest[i].uin != a.uin
    {
      assert Uins(accounts)[0] != Uins(accounts)[i + 1];
    }
  }

  /** Without `ignoreLoaded`, a loop whose accounts up to `j` are created
      stops at account `j` when its number is registered. */
  lemma {:induction false} RegisteredAccountStops(accounts: seq<AccountConfig>, present: set<int>, j: nat)
    requires j < |accounts|
    requires Distinct(Uins(accounts[..j]))
    requires forall i :: 0 <= i < j ==> accounts[i].uin != 0 && accounts[i].uin !in present
    requires accounts[j].uin != 0 && accounts[j].uin in present
    ensures Plan(accounts, present, false) == LoadPlan(accounts[..j], Some(Fail(AccountAlreadyExists)))
    decreases j
  {
    var a := accounts[0];
    if j > 0 {
      var rest := accounts[1..];
      assert forall i :: 0 <= i < |rest| ==> rest[i] == accounts[i + 1];
      assert Uins(rest[..j - 1]) == Uins(accounts[..j])[1..];
      forall i | 0 <= i < j - 1
        ensures rest[i].uin != a.uin
      {
        assert Uins(accounts[..j])[0] != Uins(accounts[..j])[i + 1];
      }
      RegisteredAccountStops(rest, present + {a.uin}, j - 1);
      assert [a] + rest[..j - 1] == accounts[..j];
    }
  }

  /** The files after preparing a supervisor for each account in turn. */
  function PrepareAll(files: map<Path, Content>, accounts: seq<AccountConfig>, env: Environment): map<Path, Content>
    requires env.Valid()
  {
    if accounts == [] then files
    else PreparedFiles(PrepareAll(files, accounts[..|accounts| - 1], env), accounts[|accounts| - 1], env)
  }

  /** The outcome of decoding a legacy pickle. */
  datatype Unpickling =
    | Unpickled(store: Option<ProcessAccountsStore>)  // loaded; `None` when it does not validate as a store
    | UnpicklingError                                 // `pickle.UnpicklingError`
    | OtherUnpicklingError                            // any other exception while unpickling

  /** The serialisations of the accounts store. */
  datatype StoreCodec = StoreCodec(
    encode: ProcessAccountsStore -> seq<bv8>,             // `store.json(...).encode()`
    parseRaw: seq<bv8> -> Option<ProcessAccountsStore>,   // `ProcessAccountsStore.parse_raw`
    unpickle: seq<bv8> -> Unpickling,                     // `pickle.loads` then `parse_obj_as`
    decompress: seq<bv8> -> Option<seq<bv8>>)             // `zlib.decompress`

  /** A codec whose reader reads back every store its writer writes. */
  ghost predicate StoreRoundTrips(c: StoreCodec) {
    forall s :: c.parseRaw(c.encode(s)) == Some(s)
  }

  /** Decoding the saved bytes: the JSON reader, or in legacy mode the
      unpickler, retried on the decompressed bytes only when it raised
      `UnpicklingError`. `None` stands for any failure. */
  function DecodeStore(bytes: seq<bv8>, isDumps: bool, codec: StoreCodec): (r: Option<ProcessAccountsStore>)
    ensures !isDumps ==> r == codec.parseRaw(bytes)
    ensures isDumps && codec.unpickle(bytes).Unpickled? ==> r == codec.unpickle(bytes).store
    ensures isDumps && codec.unpickle(bytes).OtherUnpicklingError? ==> r.None?
    ensures isDumps && codec.unpickle(bytes).UnpicklingError? ==>
              r == (if codec.decompress(bytes).None? then None
                    else if codec.unpickle(codec.decompress(bytes).value).Unpickled?
                    then codec.unpickle(codec.decompress(bytes).value).store
                    else None)
  {
    if !isDumps then codec.parseRaw(bytes)
    else match codec.unpickle(bytes)
      case Unpickled(s) => s
      case OtherUnpicklingError => None
      case UnpicklingError =>
        match codec.decompress(bytes)
        case None => None
        case Some(raw) =>
          match codec.unpickle(raw)
          case Unpickled(s) => s
          case _ => None
  }

  /** The single error every decoding failure is wrapped into. */
  function LoadFailure(pathRepr: string): (f: Failure)
    ensures f.RuntimeError? && |f.message| == 35 + |pathRepr|
    ensures f.message[..35] == "Failed to load saved accounts from "
    ensures f.message[35..] == pathRepr
  {
    RuntimeError("Failed to load saved accounts from " + pathRepr)
  }

  /** The bytes `save` writes, read back with the JSON reader, give the
      saved store. */
  lemma SavedStoreDecodes(codec: StoreCodec, store: ProcessAccountsStore)
    requires StoreRoundTrips(codec)
    ensures DecodeStore(codec.encode(store), false, codec) == Some(store)
  {
  }

  /** `ProcessesManager`: the registry. */
  class ProcessesManager {
    var processes: map<int, GoCQProcess>
    var order: seq<int>

    /** The insertion order lists every key once. */
    predicate Valid()
      reads this
    {
      Distinct(order) && processes.Keys == set u | u in order
    }

    /** Every supervisor is filed under its own nonzero account number, as
        the constructor's registration does. */
    predicate Registered()
      reads this
    {
      forall u :: u in processes ==> u != 0 && processes[u].account.uin == u
    }

    constructor ()
      ensures processes == map[] && order == []
      ensures Valid() && Registered()
    {
      processes := map[];
      order := [];
    }

    /** `get`. */
    function Get(uin: int): (r: Option<GoCQProcess>)
      reads this
      ensures r.Some? <==> uin in processes
      ensures r.Some? ==> r.value == processes[uin]
    {
      if uin in processes then Some(processes[uin]) else None
    }

    /** `add`: a key already registered is refused with nothing changed;
        otherwise the process is filed under it and nothing else changes. */
    method Add(process: GoCQProcess, uin: Option<int>) returns (r: Result<()>)
      requires Valid()
      modifies this
      ensures Valid()
      ensures var k := RegistrationKey(uin, process.account.uin);
              && (k in old(processes) ==>
                    r == Err(Fail(AccountAlreadyExists)) && processes == old(processes) && order == old(order))
              && (k !in old(processes) ==>
                    r == Ok(()) && processes == old(processes)[k := process] && order == old(order) + [k])
    {
      var k := RegistrationKey(uin, process.account.uin);
      if k in processes {
        return Err(Fail(AccountAlreadyExists));
      }
      processes := processes[k := process];
      order := order + [k];
      r := Ok(());
    }

    /** `create_instance`: the constructor first registers the new
        supervisor under its account number, then prepares its files.
        Registration fails for the account number 0 and for a registered
        one, and then nothing is created and no file is touched. */
    method CreateInstance(account: AccountConfig, predefined: bool, options: ProcessOptions,
                          fs: FileSystem, env: Environment) returns (r: Result<GoCQProcess>)
      requires Valid() && env.Valid()
      modifies this, fs
      ensures Valid()
      ensures r.Ok? <==> CreateFailure(account.uin, old(processes).Keys).None?
      ensures r.Err? ==>
                && r.failure == CreateFailure(account.uin, old(processes).Keys).value
                && processes == old(processes) && order == old(order) && fs.files == old(fs.files)
      ensures r.Ok? ==>
                && fresh(r.value) && fresh(r.value.logs)
                && r.value.account == account && r.value.predefined == predefined
                && r.value.maxRestarts == options.maxRestarts
                && !r.value.daemonThreadRunning && r.value.process.None? && r.value.restartCount == 0
                && processes == old(processes)[account.uin := r.value]
                && order == old(order) + [account.uin]
                && fs.files == PreparedFiles(old(fs.files), account, env)
      ensures old(Registered()) ==> Registered()
    {
      if account.uin == 0 {
        return Err(AttributeError);
      }
      if account.uin in processes {
        return Err(Fail(AccountAlreadyExists));
      }
      var p := new GoCQProcess(account, predefined, options, fs, env);
      var added := Add(p, Some(account.uin));
      r := Ok(p);
    }

    /** `remove`: an unknown key is a `KeyError` with nothing changed;
        otherwise exactly that entry goes, its supervisor's listeners are
        cleared, and the supervisor itself is not stopped. */
    method Remove(uin: int) returns (r: Result<()>)
      requires Valid()
      modifies this, if uin in processes then {processes[uin].logs} else {}
      ensures Valid()
      ensures uin !in old(processes) ==> r == Err(KeyError(uin)) && processes == old(processes) && order == old(order)
      ensures uin in old(processes) ==>
                && r == Ok(())
                && processes == old(processes) - {uin}
                && order == Without(old(order), uin)
                && old(processes)[uin].logs.listeners == {}
                && old(processes)[uin].logs.entries == old(processes[uin].logs.entries)
                && unchanged(old(processes)[uin])
      ensures old(Registered()) ==> Registered()
    {
      if uin !in processes {
        return Err(KeyError(uin));
      }
      var process := processes[uin];
      processes := processes - {uin};
      order := Without(order, uin);
      process.logs.ClearListeners();
      r := Ok(());
    }

    /** `all`: every registered supervisor, or with `includePredefined`
        false exactly the ones that are not predefined, in registration
        order. */
    function All(includePredefined: bool): (r: seq<GoCQProcess>)
      reads this
      requires Valid()
      ensures forall u :: u in processes ==> (processes[u] in r <==> includePredefined || !processes[u].predefined)
      ensures forall p :: p in r ==> (exists u :: u in processes && processes[u] == p) && (includePredefined || !p.predefined)
      ensures includePredefined ==> |r| == |processes|
      ensures exists idx :: OrderedFilter(r, order, processes, includePredefined, idx)
      ensures Registered() ==> forall i, j :: 0 <= i < j < |r| ==> r[i] != r[j]
    {
      DistinctKeysCount(order);
      assert |processes| == |processes.Keys|;
      SelectPositions(order, processes, includePredefined);
      if Registered() then
        SelectOnceEach(order, processes, includePredefined);
        Select(order, processes, includePredefined)
      else Select(order, processes, includePredefined)
    }

    /** The accounts `save` stores: those of the supervisors that are not
        predefined. */
    function SavedAccounts(): (r: seq<AccountConfig>)
      reads this
      requires Valid()
      ensures forall u :: u in processes && !processes[u].predefined ==> processes[u].account in r
      ensures forall a :: a in r ==> exists u :: u in processes && !processes[u].predefined && processes[u].account == a
    {
      var ps := All(false);
      AccountsComeFrom(ps, processes);
      AccountsOf(ps)
    }

    /** `save`: writes the encoded store of the saved accounts, stamped with
        `now`, and returns the number of bytes written. */
    method Save(fs: FileSystem, savePath: Path, codec: StoreCodec, now: DateTime) returns (size: int)
      requires Valid()
      modifies fs
      ensures fs.files == old(fs.files)[savePath := Binary(codec.encode(NewStore(SavedAccounts(), now)))]
      ensures size == |codec.encode(NewStore(SavedAccounts(), now))|
    {
      var store := NewStore(SavedAccounts(), now);
      size := fs.WriteBytes(savePath, codec.encode(store));
    }

    /** The registry and the files hold, on top of `base`, `baseOrder` and
        `baseFiles`, exactly the supervisors `ps` made for the accounts
        `created`. */
    ghost predicate Loading(base: map<int, GoCQProcess>, baseOrder: seq<int>, baseFiles: map<Path, Content>,
                            created: seq<AccountConfig>, ps: seq<GoCQProcess>, fs: FileSystem, env: Environment)
      reads this, fs
      requires env.Valid()
    {
      && AccountsOf(ps) == created
      && processes == base + Registry(ps)
      && order == baseOrder + Uins(created)
      && fs.files == PrepareAll(baseFiles, created, env)
    }

    /** The loaders' loop after the accounts before `i`: the registry and
        the files hold what was created so far, and `plan` is that followed
        by the plan of the remaining accounts, or by the failure that
        stopped the loop. */
    ghost predicate Loop(accounts: seq<AccountConfig>, i: nat, predefined: bool, ignoreLoaded: bool, plan: LoadPlan,
                         base: map<int, GoCQProcess>, baseOrder: seq<int>, baseFiles: map<Path, Content>,
                         stopped: Option<Failure>, created: seq<AccountConfig>, ps: seq<GoCQProcess>,
                         fs: FileSystem, env: Environment)
      reads this, fs
      requires env.Valid()
    {
      && i <= |accounts|
      && Valid() && Loading(base, baseOrder, baseFiles, created, ps, fs, env)
      && AllPredefined(ps, predefined)
      && plan == if stopped.None? then Join(created, Plan(accounts[i..], processes.Keys, ignoreLoaded))
                 else LoadPlan(created, stopped)
    }

    /** One turn of the loaders' loop, on account `i`: skipped when
        `ignoreLoaded` holds and its number is registered, otherwise a
        supervisor is created for it, or the failure is returned. */
    method LoadOne(accounts: seq<AccountConfig>, i: nat, predefined: bool, ignoreLoaded: bool,
                   options: ProcessOptions, fs: FileSystem, env: Environment, ghost plan: LoadPlan,
                   ghost base: map<int, GoCQProcess>, ghost baseOrder: seq<int>, ghost baseFiles: map<Path, Content>,
                   ghost created: seq<AccountConfig>, ghost ps: seq<GoCQProcess>)
      returns (stopped: Option<Failure>, ghost created': seq<AccountConfig>, made: Option<GoCQProcess>)
      requires i < |accounts| && env.Valid()
      requires Loop(accounts, i, predefined, ignoreLoaded, plan, base, baseOrder, baseFiles, None, created, ps, fs, env)
      modifies this, fs
      ensures Loop(accounts, i + 1, predefined, ignoreLoaded, plan, base, baseOrder, baseFiles,
                   stopped, created', ps + Listed(made), fs, env)
      ensures old(Registered()) ==> Registered()
    {
      var a := accounts[i];
      PlanStep(accounts, i, processes.Keys, ignoreLoaded);
      if ignoreLoaded && a.uin in processes {
        assert ps + [] == ps;
        return None, created, None;
      }
      ghost var keys := processes.Keys;
      var p := CreateInstance(a, predefined, options, fs, env);
      if p.Err? {
        assert ps + [] == ps;
        return Some(p.failure), created, None;
      }
      assert processes.Keys == keys + {a.uin};
      PrepareAllStep(baseFiles, created, a, env);
      UinsStep(baseOrder, created, a);
      RegistryStep(base, ps, p.value);
      AccountsOfStep(ps, p.value);
      assert (ps + [p.value])[..|ps|] == ps;
      JoinStep(created, a, Plan(accounts[i + 1..], processes.Keys, ignoreLoaded));
      stopped, created', made := None, created + [a], Some(p.value);
    }

    /** The loop starts with nothing created and the whole plan ahead. */
    lemma LoopStarts(accounts: seq<AccountConfig>, predefined: bool, ignoreLoaded: bool, fs: FileSystem, env: Environment)
      requires Valid() && env.Valid()
      ensures Loop(accounts, 0, predefined, ignoreLoaded, Plan(accounts, processes.Keys, ignoreLoaded),
                   processes, order, fs.files, None, [], [], fs, env)
    {
      assert accounts[0..] == accounts;
      assert processes + map[] == processes;
      assert order + [] == order;
    }

    /** The loop ends on a failure or after the last account, and then
        `plan` is exactly what was created and the failure, if any. */
    lemma LoopEnds(accounts: seq<AccountConfig>, i: nat, predefined: bool, ignoreLoaded: bool, plan: LoadPlan,
                   base: map<int, GoCQProcess>, baseOrder: seq<int>, baseFiles: map<Path, Content>,
                   stopped: Option<Failure>, created: seq<AccountConfig>, ps: seq<GoCQProcess>,
                   fs: FileSystem, env: Environment)
      requires env.Valid()
      requires Loop(accounts, i, predefined, ignoreLoaded, plan, base, baseOrder, baseFiles, stopped, created, ps, fs, env)
      requires i == |accounts| || stopped.Some?
      ensures plan == LoadPlan(created, stopped)
    {
      if stopped.None? {
        assert accounts[i..] == [];
        assert created + [] == created;
      }
    }

    /** The loaders' shared loop: for each account in turn, skip it when
        `ignoreLoaded` holds and its number is registered, otherwise create
        a supervisor for it; the first failure ends the loop, and the
        supervisors created before it, `made`, stay registered. */
    method CreateAll(accounts: seq<AccountConfig>, predefined: bool, ignoreLoaded: bool,
                     options: ProcessOptions, fs: FileSystem, env: Environment)
      returns (r: Result<seq<GoCQProcess>>)
      requires Valid() && env.Valid()
      modifies this, fs
      ensures Valid() && (old(Registered()) ==> Registered())
      ensures Loaded(old(processes), old(order), old(fs.files), Plan(accounts, old(processes).Keys, ignoreLoaded),
                     predefined, r, fs, env)
    {
      ghost var plan := Plan(accounts, processes.Keys, ignoreLoaded);
      ghost var created: seq<AccountConfig> := [];
      var ps: seq<GoCQProcess> := [];
      var stopped: Option<Failure> := None;
      var i := 0;
      LoopStarts(accounts, predefined, ignoreLoaded, fs, env);
      while i < |accounts| && stopped.None?
        invariant Loop(accounts, i, predefined, ignoreLoaded, plan, old(processes), old(order), old(fs.files),
                       stopped, created, ps, fs, env)
        invariant old(Registered()) ==> Registered()
      {
        var p;
        stopped, created, p := LoadOne(accounts, i, predefined, ignoreLoaded, options, fs, env, plan,
                                       old(processes), old(order), old(fs.files), created, ps);
        ps := ps + Listed(p);
        i := i + 1;
      }
      LoopEnds(accounts, i, predefined, ignoreLoaded, plan, old(processes), old(order), old(fs.files),
               stopped, created, ps, fs, env);
      r := if stopped.Some? then Err(stopped.value) else Ok(ps);
      LoadingIsLoaded(old(processes), old(order), old(fs.files), plan, predefined, r, ps, fs, env);
    }

    /** What the loaders promise, on top of `base`, `baseOrder` and
        `baseFiles`: they fail exactly when `plan` stops, with its failure;
        otherwise they return one supervisor per planned account, in order.
        Either way the registry gains exactly the planned accounts, each
        filed under its number with the requested `predefined` flag, keeps
        every earlier entry, and the files of each planned account are
        prepared in turn. */
    ghost predicate Loaded(base: map<int, GoCQProcess>, baseOrder: seq<int>, baseFiles: map<Path, Content>,
                           plan: LoadPlan, predefined: bool, r: Result<seq<GoCQProcess>>,
                           fs: FileSystem, env: Environment)
      reads this, fs
      requires env.Valid()
    {
      && (r.Ok? <==> plan.stopped.None?)
      && (r.Err? ==> r.failure == plan.stopped.value)
      && (r.Ok? ==> AccountsOf(r.value) == plan.created)
      && processes.Keys == base.Keys + (set a | a in plan.created :: a.uin)
      && (forall u :: u in base ==> u in processes && processes[u] == base[u])
      && (forall a :: a in plan.created ==>
            a.uin in processes && processes[a.uin].account == a && processes[a.uin].predefined == predefined)
      && order == baseOrder + Uins(plan.created)
      && fs.files == PrepareAll(baseFiles, plan.created, env)
    }

    /** The loop's bookkeeping gives the loaders' promise, for a plan that
        creates distinct accounts none of which was registered. */
    lemma LoadingIsLoaded(base: map<int, GoCQProcess>, baseOrder: seq<int>, baseFiles: map<Path, Content>,
                          plan: LoadPlan, predefined: bool, r: Result<seq<GoCQProcess>>, ps: seq<GoCQProcess>,
                          fs: FileSystem, env: Environment)
      requires env.Valid()
      requires Loading(base, baseOrder, baseFiles, plan.created, ps, fs, env) && AllPredefined(ps, predefined)
      requires Distinct(Uins(plan.created)) && forall a :: a in plan.created ==> a.uin !in base
      requires (r.Ok? <==> plan.stopped.None?) && (r.Err? ==> r.failure == plan.stopped.value)
      requires r.Ok? ==> r.value == ps
      ensures Loaded(base, baseOrder, baseFiles, plan, predefined, r, fs, env)
    {
      RegistryOfCreated(ps, plan.created, predefined);
    }

    /** `load_config`: one predefined supervisor per configured account. */
    method LoadConfig(accounts: seq<AccountConfig>, ignoreLoaded: bool, options: ProcessOptions,
                      fs: FileSystem, env: Environment) returns (r: Result<seq<GoCQProcess>>)
      requires Valid() && env.Valid()
      modifies this, fs
      ensures Valid() && (old(Registered()) ==> Registered())
      ensures Loaded(old(processes), old(order), old(fs.files), Plan(accounts, old(processes).Keys, ignoreLoaded),
                     true, r, fs, env)
    {
      r := CreateAll(accounts, true, ignoreLoaded, options, fs, env);
    }

    /** `load_saved`: reads the save file (a missing file fails as is),
        decodes it, wrapping any decoding failure into the one
        `RuntimeError` with nothing created, and then creates a supervisor,
        not predefined, per saved account. */
    method LoadSaved(fs: FileSystem, savePath: Path, pathRepr: string, isDumps: bool, ignoreLoaded: bool,
                     codec: StoreCodec, options: ProcessOptions, env: Environment)
      returns (r: Result<seq<GoCQProcess>>)
      requires Valid() && env.Valid()
      modifies this, fs
      ensures Valid() && (old(Registered()) ==> Registered())
      ensures ReadBytesIn(old(fs.files), savePath).Err? ==>
                && r == Err(ReadBytesIn(old(fs.files), savePath).failure)
                && processes == old(processes) && order == old(order) && fs.files == old(fs.files)
      ensures ReadBytesIn(old(fs.files), savePath).Ok?
              && DecodeStore(ReadBytesIn(old(fs.files), savePath).value, isDumps, codec).None? ==>
                && r == Err(LoadFailure(pathRepr))
                && processes == old(processes) && order == old(order) && fs.files == old(fs.files)
      ensures ReadBytesIn(old(fs.files), savePath).Ok?
              && DecodeStore(ReadBytesIn(old(fs.files), savePath).value, isDumps, codec).Some? ==>
                Loaded(old(processes), old(order), old(fs.files),
                       Plan(DecodeStore(ReadBytesIn(old(fs.files), savePath).value, isDumps, codec).value.accounts,
                            old(processes).Keys, ignoreLoaded),
                       false, r, fs, env)
    {
      var bytes := fs.ReadBytes(savePath);
      if bytes.Err? {
        return Err(bytes.failure);
      }
      var store := DecodeStore(bytes.value, isDumps, codec);
      if store.None? {
        return Err(LoadFailure(pathRepr));
      }
      r := CreateAll(store.value.accounts, false, ignoreLoaded, options, fs, env);
    }
  }

  /** The loop's step: the plan from account `i` on is a skip, a stop, or
      account `i` followed by the plan from `i + 1` on. */
  lemma PlanStep(accounts: seq<AccountConfig>, i: nat, present: set<int>, ignoreLoaded: bool)
    requires i < |accounts|
    ensures var a := accounts[i];
            Plan(accounts[i..], present, ignoreLoaded)
            == if ignoreLoaded && a.uin in present then Plan(accounts[i + 1..], present, ignoreLoaded)
               else if CreateFailure(a.uin, present).Some? then LoadPlan([], CreateFailure(a.uin, present))
               else Join([a], Plan(accounts[i + 1..], present + {a.uin}, ignoreLoaded))
  {
    assert accounts[i..][0] == accounts[i];
    assert accounts[i..][1..] == accounts[i + 1..];
  }

  /** Every supervisor of `ps` is predefined exactly when `predefined`. */
  predicate AllPredefined(ps: seq<GoCQProcess>, predefined: bool) {
    ps == [] || (AllPredefined(ps[..|ps| - 1], predefined) && ps[|ps| - 1].predefined == predefined)
  }

  /** The supervisor made, if any, as a list. */
  function Listed(p: Option<GoCQProcess>): (ps: seq<GoCQProcess>)
    ensures p.None? ==> ps == []
    ensures p.Some? ==> ps == [p.value]
  {
    if p.Some? then [p.value] else []
  }

  lemma {:induction false} AllPredefinedAt(ps: seq<GoCQProcess>, predefined: bool)
    requires AllPredefined(ps, predefined)
    ensures forall j :: 0 <= j < |ps| ==> ps[j].predefined == predefined
  {
    if ps != [] {
      var init := ps[..|ps| - 1];
      AllPredefinedAt(init, predefined);
      assert forall j :: 0 <= j < |init| ==> ps[j] == init[j];
    }
  }

  /** Filing supervisors one after the other by account number. */
  function Registry(ps: seq<GoCQProcess>): (m: map<int, GoCQProcess>)
  {
    if ps == [] then map[]
    else Registry(ps[..|ps| - 1])[ps[|ps| - 1].account.uin := ps[|ps| - 1]]
  }

  /** The registry of supervisors made for distinct accounts `created`:
      exactly their numbers are keys, each holding its own account with the
      requested `predefined` flag. */
  lemma RegistryOfCreated(ps: seq<GoCQProcess>, created: seq<AccountConfig>, predefined: bool)
    requires AccountsOf(ps) == created && Distinct(Uins(created)) && AllPredefined(ps, predefined)
    ensures Registry(ps).Keys == set a | a in created :: a.uin
    ensures forall a :: a in created ==>
              a.uin in Registry(ps) && Registry(ps)[a.uin].account == a && Registry(ps)[a.uin].predefined == predefined
  {
    RegistryFiles(ps);
    AllPredefinedAt(ps, predefined);
    forall a | a in created
      ensures a.uin in Registry(ps) && Registry(ps)[a.uin].account == a && Registry(ps)[a.uin].predefined == predefined
    {
      var j :| 0 <= j < |created| && created[j] == a;
      assert AccountsOf(ps)[j] == ps[j].account;
    }
    forall u | u in Registry(ps)
      ensures u in (set a | a in created :: a.uin)
    {
      var j :| 0 <= j < |ps| && ps[j].account.uin == u;
      assert AccountsOf(ps)[j] == created[j];
    }
  }

  /** With distinct account numbers, each supervisor is found under its own
      number, and only their numbers are keys. */
  lemma {:induction false} RegistryFiles(ps: seq<GoCQProcess>)
    requires Distinct(Uins(AccountsOf(ps)))
    ensures forall u :: u in Registry(ps) <==> exists j :: 0 <= j < |ps| && ps[j].account.uin == u
    ensures forall j :: 0 <= j < |ps| ==> Registry(ps)[ps[j].account.uin] == ps[j]
  {
    if ps != [] {
      var n := |ps| - 1;
      var init := ps[..n];
      assert forall j :: 0 <= j < n ==> init[j] == ps[j];
      assert Uins(AccountsOf(init)) == Uins(AccountsOf(ps))[..n];
      RegistryFiles(init);
      forall j | 0 <= j < n
        ensures ps[j].account.uin != ps[n].account.uin
      {
        assert Uins(AccountsOf(ps))[j] != Uins(AccountsOf(ps))[n];
      }
    }
  }

  lemma RegistryStep(base: map<int, GoCQProcess>, ps: seq<GoCQProcess>, p: GoCQProcess)
    ensures (base + Registry(ps))[p.account.uin := p] == base + Registry(ps + [p])
  {
    assert (ps + [p])[..|ps|] == ps;
  }

  lemma AccountsOfStep(ps: seq<GoCQProcess>, p: GoCQProcess)
    ensures AccountsOf(ps + [p]) == AccountsOf(ps) + [p.account]
  {
  }

  lemma PrepareAllStep(files: map<Path, Content>, created: seq<AccountConfig>, a: AccountConfig, env: Environment)
    requires env.Valid()
    ensures PrepareAll(files, created + [a], env) == PreparedFiles(PrepareAll(files, created, env), a, env)
  {
    assert (created + [a])[..|created|] == created;
  }

  lemma JoinStep(created: seq<AccountConfig>, a: AccountConfig, rest: LoadPlan)
    ensures Join(created, Join([a], rest)) == Join(created + [a], rest)
  {
    assert created + ([a] + rest.created) == (created + [a]) + rest.created;
  }

  lemma UinsStep(prefix: seq<int>, created: seq<AccountConfig>, a: AccountConfig)
    ensures prefix + Uins(created + [a]) == prefix + Uins(created) + [a.uin]
  {
    assert Uins(created + [a]) == Uins(created) + [a.uin];
  }

  /** Distinct keys are as many as the set they form. */
  lemma {:induction false} DistinctKeysCount(keys: seq<int>)
    requires Distinct(keys)
    ensures |set u | u in keys| == |keys|
  {
    if keys != [] {
      var rest := keys[1..];
      assert Distinct(rest);
      DistinctKeysCount(rest);
      assert keys[0] !in rest;
      assert (set u | u in keys) == (set u | u in rest) + {keys[0]};
    }
  }

  /** Each account of a selection of registered supervisors belongs to one
      of them. */
  lemma AccountsComeFrom(ps: seq<GoCQProcess>, table: map<int, GoCQProcess>)
    requires forall p :: p in ps ==> (exists u :: u in table && table[u] == p) && !p.predefined
    ensures forall a :: a in AccountsOf(ps) ==> exists u :: u in table && !table[u].predefined && table[u].account == a
  {
    forall a | a in AccountsOf(ps)
      ensures exists u :: u in table && !table[u].predefined && table[u].account == a
    {
      var i :| 0 <= i < |ps| && AccountsOf(ps)[i] == a;
      var p := ps[i];
      assert p in ps;
      var u :| u in table && table[u] == p;
    }
  }

  /** The accounts a registry saves have distinct nonzero numbers, so
      loading them back into a registry without those numbers creates a
      supervisor, not predefined, for every one of them: the save file
      round-trips. */
  lemma SaveThenLoad(m: ProcessesManager, codec: StoreCodec, now: DateTime, present: set<int>, ignoreLoaded: bool)
    requires m.Valid() && m.Registered() && StoreRoundTrips(codec)
    requires forall u :: u in m.processes ==> u !in present
    ensures var saved := m.SavedAccounts();
            var decoded := DecodeStore(codec.encode(NewStore(saved, now)), false, codec);
            && decoded == Some(NewStore(saved, now))
            && Plan(decoded.value.accounts, present, ignoreLoaded) == LoadPlan(saved, None)
  {
    var saved := m.SavedAccounts();
    SavedStoreDecodes(codec, NewStore(saved, now));
    SelectedAccountsAreDistinct(m.order, m.processes);
    forall i | 0 <= i < |saved|
      ensures saved[i].uin != 0 && saved[i].uin !in present
    {
      assert saved[i] in saved;
    }
    FreshAccountsAreAllCreated(saved, present, ignoreLoaded);
  }

  /** Selecting from a registry filed by account number yields accounts
      with distinct numbers. */
  lemma {:induction false} SelectedAccountsAreDistinct(keys: seq<int>, table: map<int, GoCQProcess>)
    requires Distinct(keys)
    requires forall k :: k in keys ==> k in table && table[k].account.uin == k
    ensures Distinct(Uins(AccountsOf(Select(keys, table, false))))
    ensures forall a :: a in AccountsOf(Select(keys, table, false)) ==> a.uin in keys
  {
    if keys != [] {
      var rest := keys[1..];
      assert forall k :: k in rest ==> k in keys && k != keys[0];
      SelectedAccountsAreDistinct(rest, table);
      var tail := AccountsOf(Select(rest, table, false));
      var p := table[keys[0]];
      if !p.predefined {
        assert Select(keys, table, false) == [p] + Select(rest, table, false);
        AccountsOfCons(p, Select(rest, table, false));
        UinsCons(p.account, tail);
        assert keys[0] !in Uins(tail);
        DistinctCons(keys[0], Uins(tail));
      } else {
        assert Select(keys, table, false) == Select(rest, table, false);
      }
    }
  }

  lemma AccountsOfCons(p: GoCQProcess, ps: seq<GoCQProcess>)
    ensures AccountsOf([p] + ps) == [p.account] + AccountsOf(ps)
  {
  }

  lemma UinsCons(a: AccountConfig, accounts: seq<AccountConfig>)
    ensures Uins([a] + accounts) == [a.uin] + Uins(accounts)
  {
  }

  lemma DistinctCons(x: int, s: seq<int>)
    requires Distinct(s) && x !in s
    ensures Distinct([x] + s)
  {
  }
}
