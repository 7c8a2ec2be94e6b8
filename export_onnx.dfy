/**
 * Checkpoint handling of scripts/export_to_onnx.py: unwrapping the loaded
 * object to a state dict, normalising its keys, the classifier-head check
 * that aborts the export, and the tensor names the export declares.
 *
 * `torch.load`, building MobileNetV2 and `torch.onnx.export` are library
 * calls: the checkpoint is a value given to the model, and the parameter
 * names of the freshly built network are a parameter (`modelKeys`).
 */
module ExportOnnx {
  import opened Wrappers
  import Postprocess

  /** The prefixes `strip_prefix` tries, in order. */
  const PREFIXES: seq<string> := ["module.", "model.", "net."]
  /** The parameters of the retrained classifier head. */
  const HEAD_KEYS: seq<string> := ["classifier.1.weight", "classifier.1.bias"]
  const INPUT_NAMES: seq<string> := ["input"]
  const OUTPUT_NAMES: seq<string> := ["logits"]

  /**
   * A loaded object: a tensor or another leaf, or a dictionary whose entries
   * are in insertion order. Python dictionaries have distinct keys.
   */
  datatype Value = Leaf(id: nat) | Dict(entries: seq<(string, Value)>)

  /** What `torch.load` returns: a whole module, or any other object. */
  datatype Checkpoint = ModuleObject(stateDict: seq<(string, Value)>) | Loaded(v: Value)

  datatype ExportError =
    | NotADict                       // `in` or `.items()` on an object that is not a dictionary
    | HeadMissing(missing: seq<string>)

  /** A successful run: the remapped weights and the names of the exported graph's tensors. */
  datatype Exported = Exported(weights: map<string, Value>, inputNames: seq<string>, outputNames: seq<string>)

  // ---------------------------------------------------------------------------
  // strip_prefix
  // ---------------------------------------------------------------------------

  /** The first of `prefixes` that starts `k`, removed; `k` itself when none does. */
  function StripFirst(prefixes: seq<string>, k: string): (r: string)
    ensures |r| <= |k| && r == k[|k| - |r|..]
    ensures (forall j :: 0 <= j < |prefixes| ==> !(prefixes[j] <= k)) ==> r == k
    ensures forall j :: 0 <= j < |prefixes| && prefixes[j] <= k && (forall i :: 0 <= i < j ==> !(prefixes[i] <= k)) ==>
      r == k[|prefixes[j]|..]
  {
    if prefixes == [] then k
    else if prefixes[0] <= k then k[|prefixes[0]|..]
    else
      var r := StripFirst(prefixes[1..], k);
      assert forall j :: 1 <= j < |prefixes| ==> prefixes[j] == prefixes[1..][j - 1];
      r
  }

  /** `strip_prefix`: at most one of `module.`, `model.`, `net.` is removed. */
  function StripPrefix(k: string): (r: string)
    ensures "module." <= k ==> r == k[7..]
    ensures !("module." <= k) && "model." <= k ==> r == k[6..]
    ensures !("module." <= k) && !("model." <= k) && "net." <= k ==> r == k[4..]
    ensures !("module." <= k) && !("model." <= k) && !("net." <= k) ==> r == k
    ensures |r| <= |k| && r == k[|k| - |r|..]
  {
    assert PREFIXES[0] == "module." && PREFIXES[1] == "model." && PREFIXES[2] == "net.";
    StripFirst(PREFIXES, k)
  }

  /** No key starts with two of the prefixes, so their order never changes the result. */
  lemma PrefixesExclusive(k: string)
    ensures !("module." <= k && "model." <= k)
    ensures !("module." <= k && "net." <= k)
    ensures !("model." <= k && "net." <= k)
  {
    assert "module."[3] == 'u' && "model."[3] == 'e';
    assert "module."[0] == 'm' && "model."[0] == 'm' && "net."[0] == 'n';
  }

  /** One prefix per call: stripping is not idempotent. */
  lemma StripPrefixNotIdempotent()
    ensures StripPrefix("module.model.x") == "model.x"
    ensures StripPrefix(StripPrefix("module.model.x")) == "x"
  {
    StripOuterPrefix();
    StripInnerPrefix();
  }

  lemma StripOuterPrefix()
    ensures StripPrefix("module.model.x") == "model.x"
  {
    var k := "module.model.x";
    assert k[..7] == "module.";
    assert k[7..] == "model.x";
  }

  lemma StripInnerPrefix()
    ensures StripPrefix("model.x") == "x"
  {
    var k := "model.x";
    assert k[3] != "module."[3];
    assert k[..6] == "model.";
    assert k[6..] == "x";
  }

  /** A key without any of the prefixes is kept as it is. */
  lemma StripPrefixKeepsPlainKey()
    ensures StripPrefix("features.0.0.weight") == "features.0.0.weight"
  {
    var k := "features.0.0.weight";
    assert k[0] == 'f';
    assert k[0] != "module."[0] && k[0] != "model."[0] && k[0] != "net."[0];
  }

  // ---------------------------------------------------------------------------
  // Re-keying
  // ---------------------------------------------------------------------------

  /** The new key of every entry, in iteration order. */
  function StrippedKeys(items: seq<(string, Value)>): (ks: seq<string>)
    ensures |ks| == |items|
    ensures forall i :: 0 <= i < |items| ==> ks[i] == StripPrefix(items[i].0)
  {
    seq(|items|, i requires 0 <= i < |items| => StripPrefix(items[i].0))
  }

  /** The dict comprehension: each value under its stripped key, inserted in iteration order. */
  function Rekey(items: seq<(string, Value)>): (m: map<string, Value>)
    ensures |m| <= |items|
  {
    if items == [] then map[]
    else
      var last := items[|items| - 1];
      Rekey(items[..|items| - 1])[StripPrefix(last.0) := last.1]
  }

  /** The keys of the new dictionary are exactly the stripped keys. */
  lemma {:induction false} RekeyKeys(items: seq<(string, Value)>)
    ensures forall k :: k in Rekey(items) <==> k in StrippedKeys(items)
  {
    if items != [] {
      var init := items[..|items| - 1];
      RekeyKeys(init);
      assert StrippedKeys(items) == StrippedKeys(init) + [StripPrefix(items[|items| - 1].0)];
    }
  }

  /** Under each new key sits the value of the last entry that maps to it: later entries win collisions. */
  lemma {:induction false} RekeyLaterWins(items: seq<(string, Value)>, i: nat)
    requires i < |items|
    requires forall j :: i < j < |items| ==> StripPrefix(items[j].0) != StripPrefix(items[i].0)
    ensures StripPrefix(items[i].0) in Rekey(items)
    ensures Rekey(items)[StripPrefix(items[i].0)] == items[i].1
  {
    var init := items[..|items| - 1];
    if i < |items| - 1 {
      RekeyLaterWins(init, i);
    }
  }

  /** `module.fc` and `fc` both become `fc`; the entry iterated last keeps its value. */
  lemma RekeyCollision(a: Value, b: Value)
    ensures "fc" in Rekey([("module.fc", a), ("fc", b)])
    ensures Rekey([("module.fc", a), ("fc", b)])["fc"] == b
  {
    StripCollidingKeys();
    RekeyLaterWins([("module.fc", a), ("fc", b)], 1);
  }

  lemma StripCollidingKeys()
    ensures StripPrefix("module.fc") == "fc" && StripPrefix("fc") == "fc"
  {
    var k := "module.fc";
    assert k[..7] == "module.";
    assert k[7..] == "fc";
    assert "fc"[0] != "module."[0] && "fc"[0] != "model."[0] && "fc"[0] != "net."[0];
  }

  // ---------------------------------------------------------------------------
  // Unwrapping
  // ---------------------------------------------------------------------------

  /** Python's `key in d` on a dictionary. */
  predicate HasKey(entries: seq<(string, Value)>, key: string)
  {
    exists i :: 0 <= i < |entries| && entries[i].0 == key
  }

  /** `d[key]`: the value stored under `key`. */
  function Get(entries: seq<(string, Value)>, key: string): (v: Value)
    requires HasKey(entries, key)
    ensures exists i :: 0 <= i < |entries| && entries[i].0 == key && entries[i].1 == v
  {
    if entries[0].0 == key then entries[0].1
    else
      assert HasKey(entries[1..], key) by {
        var i :| 0 <= i < |entries| && entries[i].0 == key;
        assert entries[1..][i - 1] == entries[i];
      }
      var v := Get(entries[1..], key);
      ghost var i :| 0 <= i < |entries[1..]| && entries[1..][i].0 == key && entries[1..][i].1 == v;
      assert entries[i + 1] == entries[1..][i];
      v
  }

  /** One unwrapping step: descend into `key` when the dictionary has it, else keep it. */
  function Descend(v: Value, key: string): Option<Value>
  {
    if !v.Dict? then None
    else if HasKey(v.entries, key) then Some(Get(v.entries, key))
    else Some(v)
  }

  /**
   * The state dict the script ends up with: the module's own state dict or
   * the loaded object, then its `state_dict` entry, then that one's
   * `model_state_dict` entry, each only when present; None when a membership
   * test or `.items()` meets an object that is not a dictionary.
   */
  function Unwrapped(ckpt: Checkpoint): (r: Option<seq<(string, Value)>>)
    ensures r.Some? ==> WithinTwoLevels(Top(ckpt), Dict(r.value))
    ensures !Top(ckpt).Dict? ==> r.None?
  {
    var top := Top(ckpt);
    match Descend(top, "state_dict")
    case None => None
    case Some(v) =>
      DescendWithin(top, "state_dict");
      match Descend(v, "model_state_dict")
      case None => None
      case Some(w) =>
        DescendWithin(v, "model_state_dict");
        assert v == top || EntryOf(top, v);
        assert w == v || EntryOf(v, w);
        if w.Dict? then Some(w.entries) else None
  }

  /** A step either stays where it is or moves to a value stored in the dictionary. */
  lemma DescendWithin(v: Value, key: string)
    ensures Descend(v, key).Some? ==> v.Dict? && (Descend(v, key) == Some(v) || EntryOf(v, Descend(v, key).value))
  {
    if v.Dict? && HasKey(v.entries, key) {
      var i :| 0 <= i < |v.entries| && v.entries[i].0 == key && v.entries[i].1 == Get(v.entries, key);
    }
  }

  /** The object the script starts from: a module's own state dict, or what was loaded. */
  function Top(ckpt: Checkpoint): Value
  {
    if ckpt.ModuleObject? then Dict(ckpt.stateDict) else ckpt.v
  }

  /** `w` is the value stored under some key of dictionary `v`. */
  predicate EntryOf(v: Value, w: Value)
  {
    v.Dict? && exists i :: 0 <= i < |v.entries| && v.entries[i].1 == w
  }

  /** `w` is `v` itself, a value of `v`, or a value of a value of `v`. */
  ghost predicate WithinTwoLevels(v: Value, w: Value)
  {
    w == v || EntryOf(v, w) || exists u :: EntryOf(v, u) && EntryOf(u, w)
  }

  /** The two lookups happen in this order, and each only when its key is present. */
  lemma UnwrapOrder(outer: seq<(string, Value)>, inner: seq<(string, Value)>, sd: seq<(string, Value)>)
    ensures !HasKey(outer, "state_dict") && !HasKey(outer, "model_state_dict") ==>
      Unwrapped(Loaded(Dict(outer))) == Some(outer)
    ensures HasKey(outer, "state_dict") && Get(outer, "state_dict") == Dict(inner) && !HasKey(inner, "model_state_dict") ==>
      Unwrapped(Loaded(Dict(outer))) == Some(inner)
    ensures HasKey(outer, "state_dict") && Get(outer, "state_dict") == Dict(inner)
            && HasKey(inner, "model_state_dict") && Get(inner, "model_state_dict") == Dict(sd) ==>
      Unwrapped(Loaded(Dict(outer))) == Some(sd)
    ensures !HasKey(outer, "state_dict") && HasKey(outer, "model_state_dict") && Get(outer, "model_state_dict") == Dict(sd) ==>
      Unwrapped(Loaded(Dict(outer))) == Some(sd)
  {
  }

  /** A whole saved module is unwrapped through its own state dict; a bare tensor is refused. */
  lemma UnwrapModuleAndLeaf(sd: seq<(string, Value)>, id: nat)
    ensures !HasKey(sd, "state_dict") && !HasKey(sd, "model_state_dict") ==> Unwrapped(ModuleObject(sd)) == Some(sd)
    ensures Unwrapped(Loaded(Leaf(id))).None?
  {
  }

  // ---------------------------------------------------------------------------
  // Loading into the network and the head check
  // ---------------------------------------------------------------------------

  /** The network's parameters, in order, that the state dict does not provide. */
  function MissingKeys(modelKeys: seq<string>, provided: map<string, Value>): (missing: seq<string>)
    ensures forall k :: k in missing <==> k in modelKeys && k !in provided
    ensures |missing| <= |modelKeys|
  {
    if modelKeys == [] then []
    else
      var rest := MissingKeys(modelKeys[1..], provided);
      if modelKeys[0] in provided then rest else [modelKeys[0]] + rest
  }

  /** The abort condition: one of the head's parameters is among the missing keys. */
  predicate HeadAbsent(missing: seq<string>)
  {
    exists i :: 0 <= i < |missing| && missing[i] in HEAD_KEYS
  }

  /** For a network that has the head, the export aborts exactly when the checkpoint lacks a head parameter. */
  lemma AbortsExactlyWithoutHead(modelKeys: seq<string>, provided: map<string, Value>)
    requires "classifier.1.weight" in modelKeys && "classifier.1.bias" in modelKeys
    ensures HeadAbsent(MissingKeys(modelKeys, provided)) <==>
      "classifier.1.weight" !in provided || "classifier.1.bias" !in provided
  {
    var missing := MissingKeys(modelKeys, provided);
    if "classifier.1.weight" !in provided {
      var i :| 0 <= i < |missing| && missing[i] == "classifier.1.weight";
    } else if "classifier.1.bias" !in provided {
      var i :| 0 <= i < |missing| && missing[i] == "classifier.1.bias";
    }
  }

  /**
   * The script from the loaded object to the export: `sd` is reassigned step
   * by step, and the run stops at the first object that is not a dictionary
   * or when the head is missing.
   */
  method ExportCheckpoint(ckpt: Checkpoint, modelKeys: seq<string>) returns (r: Result<Exported, ExportError>)
    ensures r == Failure(NotADict) <==> Unwrapped(ckpt).None?
    ensures Unwrapped(ckpt).Some? ==>
      var weights := Rekey(Unwrapped(ckpt).value);
      var missing := MissingKeys(modelKeys, weights);
      && (r.Success? <==> !HeadAbsent(missing))
      && (r.Success? ==> r.value == Exported(weights, INPUT_NAMES, OUTPUT_NAMES))
      && (r.Failure? ==> r.error == HeadMissing(missing))
  {
    var sd: Value := if ckpt.ModuleObject? then Dict(ckpt.stateDict) else ckpt.v;
    if !sd.Dict? {
      return Failure(NotADict);
    }
    if HasKey(sd.entries, "state_dict") {
      sd := Get(sd.entries, "state_dict");
    }
    if !sd.Dict? {
      return Failure(NotADict);
    }
    if HasKey(sd.entries, "model_state_dict") {
      sd := Get(sd.entries, "model_state_dict");
    }
    if !sd.Dict? {
      return Failure(NotADict);
    }
    var weights := Rekey(sd.entries);
    var missing := MissingKeys(modelKeys, weights);
    if HeadAbsent(missing) {
      return Failure(HeadMissing(missing));
    }
    r := Success(Exported(weights, INPUT_NAMES, OUTPUT_NAMES));
  }

  /** The exported graph's only output is `logits`, so the app resolves it and takes the softmax path. */
  lemma ExportedOutputTakesSoftmaxPath(data: seq<real>, exp: real -> real)
    ensures Postprocess.ResolveOutputName(OUTPUT_NAMES) == Some("logits")
    ensures "logits" in Postprocess.LOGIT_ALIASES && "logits" !in Postprocess.PROB_ALIASES
    ensures Postprocess.Probabilities("logits", data, exp) == Postprocess.SoftmaxOf(data, exp)
  {
    Postprocess.ResolveOutputNameExamples();
  }
}
