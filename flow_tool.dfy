/**
 * How a flow exposed as a tool binds the arguments of a call to the flow's
 * inputs. `ValidateInputs` and `BuildTweaksDict` are the checks of the
 * asynchronous entry point; `RunTweaks` is the binding prelude of the
 * synchronous one. Running the flow itself is outside the model: its
 * outputs are a parameter.
 */
module FlowTool {
  import opened Common

  /** One entry of the tool's argument list: the argument's name and the component it feeds. */
  datatype ArgName = ArgName(argName: string, componentName: string)

  /** What the tool raises. */
  datatype Error =
    | ToolException(message: string)
    | KeyError(key: string)

  const PositionalCountMessage: string :=
    "Number of positional arguments does not match the number of inputs. Pass keyword arguments instead."

  const RunCountMessage: string :=
    "Number of arguments does not match the number of inputs. Pass keyword arguments instead."

  function MissingMessage(missing: seq<string>): string {
    "Missing required arguments: " + Join(missing, ", ")
  }

  /** The declared argument names, in input order. */
  function Names(inputs: seq<ArgName>): (names: seq<string>)
    ensures |names| == |inputs|
    ensures forall i :: 0 <= i < |inputs| ==> names[i] == inputs[i].argName
  {
    seq(|inputs|, i requires 0 <= i < |inputs| => inputs[i].argName)
  }

  /** The component names the inputs feed, in input order. */
  function Components(inputs: seq<ArgName>): (components: seq<string>)
    ensures |components| == |inputs|
    ensures forall i :: 0 <= i < |inputs| ==> components[i] == inputs[i].componentName
  {
    seq(|inputs|, i requires 0 <= i < |inputs| => inputs[i].componentName)
  }

  /** No later key equals the key at `i`. */
  predicate LastAt(keys: seq<string>, i: int)
    requires 0 <= i < |keys|
  {
    forall j :: i < j < |keys| ==> keys[j] != keys[i]
  }

  /**
   * A dictionary built from key/value pairs in order, as a Python dict
   * comprehension does: of two pairs with one key the later one wins.
   */
  function Bind<V>(keys: seq<string>, values: seq<V>): map<string, V>
    requires |keys| == |values|
  {
    if |keys| == 0 then map[]
    else
      var n := |keys| - 1;
      Bind(keys[..n], values[..n])[keys[n] := values[n]]
  }

  /** The keys of the dictionary are the keys of the pairs. */
  lemma {:induction false} BindKeys<V>(keys: seq<string>, values: seq<V>)
    requires |keys| == |values|
    ensures forall k :: k in Bind(keys, values) <==> k in keys
  {
    if |keys| > 0 {
      var n := |keys| - 1;
      BindKeys(keys[..n], values[..n]);
      assert keys == keys[..n] + [keys[n]];
    }
  }

  /** A key is bound to the value of its last pair. */
  lemma {:induction false} BindLast<V>(keys: seq<string>, values: seq<V>, i: nat)
    requires |keys| == |values| && i < |keys| && LastAt(keys, i)
    ensures keys[i] in Bind(keys, values) && Bind(keys, values)[keys[i]] == values[i]
  {
    var n := |keys| - 1;
    if i < n {
      assert LastAt(keys[..n], i);
      BindLast(keys[..n], values[..n], i);
    }
  }

  /**
   * `{a["arg_name"]: v for a, v in zip(inputs, args)}`: the i-th positional
   * value bound to the i-th input's name; of two inputs with one name the
   * later one wins.
   */
  function BindPositional<V>(inputs: seq<ArgName>, args: seq<V>): (bound: map<string, V>)
    requires |inputs| == |args|
    ensures forall k :: k in bound <==> k in Names(inputs)
    ensures forall i :: 0 <= i < |args| && LastAt(Names(inputs), i) ==> bound[inputs[i].argName] == args[i]
  {
    var bound := Bind(Names(inputs), args);
    BindKeys(Names(inputs), args);
    assert forall i :: 0 <= i < |args| && LastAt(Names(inputs), i) ==> bound[inputs[i].argName] == args[i] by {
      forall i | 0 <= i < |args| && LastAt(Names(inputs), i) ensures bound[inputs[i].argName] == args[i] {
        BindLast(Names(inputs), args, i);
      }
    }
    bound
  }

  /** `[a["arg_name"] for a in inputs if a["arg_name"] not in kwargs]` */
  function MissingArgs<V>(inputs: seq<ArgName>, kwargs: map<string, V>): seq<string> {
    if inputs == [] then []
    else (if inputs[0].argName in kwargs then [] else [inputs[0].argName]) + MissingArgs(inputs[1..], kwargs)
  }

  /** The missing names are exactly the declared names that are not bound. */
  lemma {:induction false} MissingArgsMembers<V>(inputs: seq<ArgName>, kwargs: map<string, V>)
    ensures forall n :: n in MissingArgs(inputs, kwargs) <==> n in Names(inputs) && n !in kwargs
  {
    if inputs != [] {
      assert Names(inputs) == [inputs[0].argName] + Names(inputs[1..]);
      MissingArgsMembers(inputs[1..], kwargs);
    }
  }

  /** The missing names are listed in input order: the list of a concatenation is the concatenation of the lists. */
  lemma {:induction false} MissingArgsInOrder<V>(a: seq<ArgName>, b: seq<ArgName>, kwargs: map<string, V>)
    ensures MissingArgs(a + b, kwargs) == MissingArgs(a, kwargs) + MissingArgs(b, kwargs)
  {
    if a == [] {
      assert a + b == b;
    } else {
      assert (a + b)[0] == a[0] && (a + b)[1..] == a[1..] + b;
      MissingArgsInOrder(a[1..], b, kwargs);
    }
  }

  /**
   * `validate_inputs`: a positional call must give one value per input and
   * then replaces the keyword arguments; afterwards every input's name must
   * be bound.
   */
  function ValidateInputs<V>(inputs: seq<ArgName>, args: seq<V>, kwargs: map<string, V>): (r: Result<map<string, V>, Error>)
    ensures 0 < |args| != |inputs| ==> r == Err(ToolException(PositionalCountMessage))
    ensures r.Ok? <==> |args| == |inputs| || (|args| == 0 && forall n :: n in Names(inputs) ==> n in kwargs)
    ensures r.Ok? ==> forall n :: n in Names(inputs) ==> n in r.value
    ensures r.Ok? && |args| == |inputs| ==> r.value == BindPositional(inputs, args)
    ensures r.Ok? && |args| != |inputs| ==> r.value == kwargs
    ensures r.Err? && |args| == 0 ==> r.error == ToolException(MissingMessage(MissingArgs(inputs, kwargs)))
  {
    if |args| > 0 && |args| != |inputs| then Err(ToolException(PositionalCountMessage))
    else
      var bound := if |args| == |inputs| then BindPositional(inputs, args) else kwargs;
      var missing := MissingArgs(inputs, bound);
      MissingArgsMembers(inputs, bound);
      if missing != [] then
        assert missing[0] in Names(inputs) && missing[0] !in bound;
        Err(ToolException(MissingMessage(missing)))
      else
        Ok(bound)
  }

  /**
   * `{a["component_name"]: bound[a["arg_name"]] for a in inputs}`: each
   * component receives the value bound to its input's name; of two inputs
   * feeding one component the later one wins.
   */
  function Tweaks<V>(inputs: seq<ArgName>, bound: map<string, V>): (tweaks: map<string, V>)
    requires forall n :: n in Names(inputs) ==> n in bound
    ensures forall c :: c in tweaks <==> c in Components(inputs)
    ensures forall i :: 0 <= i < |inputs| && LastAt(Components(inputs), i) ==>
              tweaks[inputs[i].componentName] == bound[inputs[i].argName]
  {
    var values := seq(|inputs|, i requires 0 <= i < |inputs| => bound[Names(inputs)[i]]);
    var tweaks := Bind(Components(inputs), values);
    BindKeys(Components(inputs), values);
    assert forall i :: 0 <= i < |inputs| && LastAt(Components(inputs), i) ==>
             tweaks[inputs[i].componentName] == bound[inputs[i].argName] by {
      forall i | 0 <= i < |inputs| && LastAt(Components(inputs), i)
        ensures tweaks[inputs[i].componentName] == bound[inputs[i].argName]
      {
        BindLast(Components(inputs), values, i);
      }
    }
    tweaks
  }

  /** `build_tweaks_dict`, used by `_arun`: validate, then key the bound values by component. */
  function BuildTweaksDict<V>(inputs: seq<ArgName>, args: seq<V>, kwargs: map<string, V>): (r: Result<map<string, V>, Error>)
    ensures r.Err? <==> ValidateInputs(inputs, args, kwargs).Err?
    ensures r.Err? ==> r.error == ValidateInputs(inputs, args, kwargs).error
    ensures r.Ok? ==> forall c :: c in r.value <==> c in Components(inputs)
    ensures r.Ok? ==> r.value == Tweaks(inputs, ValidateInputs(inputs, args, kwargs).value)
    ensures r.Ok? && |args| != |inputs| ==>
              forall i :: 0 <= i < |inputs| && LastAt(Components(inputs), i) ==>
                r.value[inputs[i].componentName] == kwargs[inputs[i].argName]
    ensures r.Ok? && |args| == |inputs| ==>
              forall i :: 0 <= i < |inputs| && LastAt(Components(inputs), i) && LastAt(Names(inputs), i) ==>
                r.value[inputs[i].componentName] == args[i]
  {
    match ValidateInputs(inputs, args, kwargs)
    case Err(e) => Err(e)
    case Ok(bound) => Ok(Tweaks(inputs, bound))
  }

  /**
   * The binding prelude of `_run`: positional values are bound under the same
   * count rule, with a message of its own, and there is no missing-argument
   * check; a name that is not bound raises `KeyError` for the first such input.
   */
  function RunTweaks<V>(inputs: seq<ArgName>, args: seq<V>, kwargs: map<string, V>): (r: Result<map<string, V>, Error>)
    ensures 0 < |args| != |inputs| ==> r == Err(ToolException(RunCountMessage))
    ensures |args| == |inputs| ==> r == Ok(Tweaks(inputs, BindPositional(inputs, args)))
    ensures |args| == 0 < |inputs| ==>
              if forall n :: n in Names(inputs) ==> n in kwargs then r == Ok(Tweaks(inputs, kwargs))
              else MissingArgs(inputs, kwargs) != [] && r == Err(KeyError(MissingArgs(inputs, kwargs)[0]))
  {
    if |args| == |inputs| then Ok(Tweaks(inputs, BindPositional(inputs, args)))
    else if |args| != 0 then Err(ToolException(RunCountMessage))
    else
      var missing := MissingArgs(inputs, kwargs);
      MissingArgsMembers(inputs, kwargs);
      if missing != [] then
        assert missing[0] in Names(inputs) && missing[0] !in kwargs;
        Err(KeyError(missing[0]))
      else
        Ok(Tweaks(inputs, kwargs))
  }

  /**
   * The synchronous and the asynchronous entry points accept exactly the
   * same calls and send the same tweaks; they differ only in what they raise.
   */
  lemma RunAndArunAgree<V>(inputs: seq<ArgName>, args: seq<V>, kwargs: map<string, V>)
    ensures RunTweaks(inputs, args, kwargs).Ok? <==> BuildTweaksDict(inputs, args, kwargs).Ok?
    ensures RunTweaks(inputs, args, kwargs).Ok? ==>
              RunTweaks(inputs, args, kwargs).value == BuildTweaksDict(inputs, args, kwargs).value
  {
    if |args| == 0 && |args| != |inputs| {
      MissingArgsMembers(inputs, kwargs);
    }
  }

  /** `{key: {"input_value": value} for key, value in tweaks.items()}`: what the runner is sent. */
  function WrapTweaks<V>(tweaks: map<string, V>): (wrapped: map<string, map<string, V>>)
    ensures wrapped.Keys == tweaks.Keys
    ensures forall k :: k in wrapped ==> wrapped[k].Keys == {"input_value"}
  {
    map k | k in tweaks :: map["input_value" := tweaks[k]]
  }

  /** Reads each component's value back out of its `{"input_value": value}` wrapper. */
  function UnwrapTweaks<V>(wrapped: map<string, map<string, V>>): map<string, V>
    requires forall k :: k in wrapped ==> "input_value" in wrapped[k]
  {
    map k | k in wrapped :: wrapped[k]["input_value"]
  }

  /** Wrapping loses nothing: every component still receives its own value. */
  lemma WrapTweaksRoundTrip<V>(tweaks: map<string, V>)
    ensures UnwrapTweaks(WrapTweaks(tweaks)) == tweaks
  {
  }

  /**
   * The text a run produces: "No output" when the runner returned no run
   * outputs, otherwise the formatted data of the first one (the formatting
   * is a parameter).
   */
  function RunResult<R>(runOutputs: seq<R>, format: R -> string): (text: string)
    ensures runOutputs == [] ==> text == "No output"
    ensures runOutputs != [] ==> text == format(runOutputs[0])
  {
    if runOutputs == [] then "No output" else format(runOutputs[0])
  }
}
