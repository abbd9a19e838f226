// inputs.model_profile and inputs.model_overrides: validation against the deployment's
// allowlists, and how the validated overrides are layered onto a profile.
module Overrides {
  import opened Basics
  import opened Text

  /** Python's str(), int() and float() on a decoded JSON value; None stands for the TypeError or
      ValueError the caller catches. */
  datatype Conversions = Conversions(
    text: Value -> string, integer: Value -> Option<int>, number: Value -> Option<real>)

  /** All that is used of them: a value already of the target type converts to itself. */
  ghost predicate Faithful(c: Conversions) {
    && (forall s :: c.text(VStr(s)) == s)
    && (forall n :: c.integer(VInt(n)) == Some(n))
    && (forall r :: c.number(VReal(r)) == Some(r))
  }

  datatype Allowlists = Allowlists(
    checkpoints: set<string>, diffusionModels: set<string>, clips: set<string>,
    vaes: set<string>, samplers: set<string>, schedulers: set<string>,
    minSteps: int, maxSteps: int, minCfgScale: real, maxCfgScale: real, maxNegativePromptChars: int)

  /** The string fields, in the order they are checked. */
  const STRING_FIELDS: seq<string> :=
    ["checkpoint_name", "diffusion_model_name", "clip_name", "vae_name", "sampler_name", "scheduler"]

  const ALL_OVERRIDE_KEYS: set<string> :=
    {"checkpoint_name", "diffusion_model_name", "clip_name", "vae_name", "sampler_name", "scheduler",
     "steps", "cfg_scale", "negative_prompt"}

  function AllowlistOf(a: Allowlists, field: string): set<string> {
    if field == "checkpoint_name" then a.checkpoints
    else if field == "diffusion_model_name" then a.diffusionModels
    else if field == "clip_name" then a.clips
    else if field == "vae_name" then a.vaes
    else if field == "sampler_name" then a.samplers
    else a.schedulers
  }

  datatype OverrideError =
    | NotAnObject
    | UnknownKeys(keys: set<string>)
    | NotEnabled(field: string)
    | NotAllowed(field: string, value: string)

  // ---- what validation promises -------------------------------------------------------

  /** Why a string field is refused, if it is. */
  function FieldFault(c: Conversions, a: Allowlists, o: Payload, field: string): Option<OverrideError> {
    if field !in o then None
    else if AllowlistOf(a, field) == {} then Some(NotEnabled(field))
    else if Strip(c.text(o[field])) !in AllowlistOf(a, field) then Some(NotAllowed(field, Strip(c.text(o[field]))))
    else None
  }

  /** The value a key contributes: nothing when it is absent, or a number out of its range. */
  function Kept(c: Conversions, a: Allowlists, o: Payload, key: string): Option<Value> {
    if key !in o then None
    else if key == "steps" then
      var n := c.integer(o[key]);
      if n.Some? && a.minSteps <= n.value <= a.maxSteps then Some(VInt(n.value)) else None
    else if key == "cfg_scale" then
      var x := c.number(o[key]);
      if x.Some? && a.minCfgScale <= x.value <= a.maxCfgScale then Some(VReal(x.value)) else None
    else if key == "negative_prompt" then Some(VStr(Head(c.text(o[key]), a.maxNegativePromptChars)))
    else Some(VStr(Strip(c.text(o[key]))))
  }

  function KeptOf(c: Conversions, a: Allowlists, o: Payload, keys: set<string>): Payload {
    map key | key in keys && Kept(c, a, o, key).Some? :: Kept(c, a, o, key).value
  }

  /** Adding one more key to the keys looked at. */
  lemma KeptOfAdd(c: Conversions, a: Allowlists, o: Payload, keys: set<string>, key: string)
    ensures KeptOf(c, a, o, keys + {key}) ==
            (if Kept(c, a, o, key).Some? then KeptOf(c, a, o, keys)[key := Kept(c, a, o, key).value]
             else KeptOf(c, a, o, keys))
  {
    hide Kept;
  }

  /** The field at i is the first one to be refused. */
  ghost predicate FirstFault(c: Conversions, a: Allowlists, o: Payload, fields: seq<string>, i: nat) {
    && i < |fields|
    && FieldFault(c, a, o, fields[i]).Some?
    && forall j :: 0 <= j < i ==> FieldFault(c, a, o, fields[j]).None?
  }

  /** The fault of the first refused field, if any is refused. */
  function FirstFaultOf(c: Conversions, a: Allowlists, o: Payload, fields: seq<string>): (r: Option<OverrideError>)
    ensures r.None? <==> forall f :: f in fields ==> FieldFault(c, a, o, f).None?
    ensures r.Some? ==> exists i: nat :: FirstFault(c, a, o, fields, i) && r == FieldFault(c, a, o, fields[i])
  {
    if fields == [] then None
    else if FieldFault(c, a, o, fields[0]).Some? then
      assert FirstFault(c, a, o, fields, 0);
      FieldFault(c, a, o, fields[0])
    else
      var r := FirstFaultOf(c, a, o, fields[1..]);
      assert r.Some? ==> exists i: nat :: FirstFault(c, a, o, fields, i) && r == FieldFault(c, a, o, fields[i]) by {
        if r.Some? {
          var i: nat :| FirstFault(c, a, o, fields[1..], i) && r == FieldFault(c, a, o, fields[1..][i]);
          assert FirstFault(c, a, o, fields, i + 1);
        }
      }
      r
  }

  lemma {:induction false} FirstFaultUnique(c: Conversions, a: Allowlists, o: Payload, fields: seq<string>, i: nat)
    requires FirstFault(c, a, o, fields, i)
    ensures FirstFaultOf(c, a, o, fields) == FieldFault(c, a, o, fields[i])
  {
    if i > 0 {
      assert FieldFault(c, a, o, fields[0]).None?;
      assert forall j :: 0 <= j < i - 1 ==> fields[1..][j] == fields[j + 1];
      FirstFaultUnique(c, a, o, fields[1..], i - 1);
    }
  }

  /** What validate_overrides returns or raises. */
  function Validated(c: Conversions, a: Allowlists, overrides: Value): Result<Payload, OverrideError> {
    match overrides
    case VNull => Ok(map[])
    case VObj(o) =>
      if !(o.Keys <= ALL_OVERRIDE_KEYS) then Err(UnknownKeys(o.Keys - ALL_OVERRIDE_KEYS))
      else
        var fault := FirstFaultOf(c, a, o, STRING_FIELDS);
        if fault.Some? then Err(fault.value) else Ok(KeptOf(c, a, o, ALL_OVERRIDE_KEYS))
    case _ => Err(NotAnObject)
  }

  // ---- the code ---------------------------------------------------------------------------

  lemma FieldNames()
    ensures forall i, j :: 0 <= i < j < |STRING_FIELDS| ==> STRING_FIELDS[i] != STRING_FIELDS[j]
    ensures Elements(STRING_FIELDS) + {"steps", "cfg_scale", "negative_prompt"} == ALL_OVERRIDE_KEYS
    ensures Elements(STRING_FIELDS) !! {"steps", "cfg_scale", "negative_prompt"}
  {
    assert "checkpoint_name"[1] == 'h' && "diffusion_model_name"[1] == 'i' && "clip_name"[1] == 'l';
    assert "vae_name"[1] == 'a' && "sampler_name"[0] == 's' && "scheduler"[0] == 's';
    assert "sampler_name"[1] == 'a' && "scheduler"[1] == 'c' && "vae_name"[0] == 'v';
    assert "steps"[1] == 't' && "cfg_scale"[1] == 'f' && "negative_prompt"[1] == 'e';
    assert forall i :: 0 <= i < |STRING_FIELDS| ==> STRING_FIELDS[i] in Elements(STRING_FIELDS);
    assert Elements(STRING_FIELDS) ==
      {"checkpoint_name", "diffusion_model_name", "clip_name", "vae_name", "sampler_name", "scheduler"};
  }

  /** The loop over the allowlisted string fields. */
  method ValidateStrings(c: Conversions, a: Allowlists, o: Payload, fields: seq<string>)
    returns (r: Result<Payload, OverrideError>)
    requires forall f :: f in fields ==> f != "steps" && f != "cfg_scale" && f != "negative_prompt"
    ensures r.Err? <==> FirstFaultOf(c, a, o, fields).Some?
    ensures r.Err? ==> r.error == FirstFaultOf(c, a, o, fields).value
    ensures r.Ok? ==> r.value == KeptOf(c, a, o, Elements(fields))
  {
    hide AllowlistOf, KeptOf;
    var validated: Payload := map[];
    assert KeptOf(c, a, o, Elements(fields[..0])) == map[] by { NothingKept(c, a, o); }
    var i := 0;
    while i < |fields|
      invariant 0 <= i <= |fields|
      invariant forall j :: 0 <= j < i ==> FieldFault(c, a, o, fields[j]).None?
      invariant validated == KeptOf(c, a, o, Elements(fields[..i]))
    {
      var field := fields[i];
      assert field in fields;
      assert Elements(fields[..i + 1]) == Elements(fields[..i]) + {field};
      KeptOfAdd(c, a, o, Elements(fields[..i]), field);
      if field in o {
        var value := Strip(c.text(o[field]));
        var allowlist := AllowlistOf(a, field);
        if allowlist == {} {
          FirstFaultUnique(c, a, o, fields, i);
          return Err(NotEnabled(field));
        }
        if value !in allowlist {
          FirstFaultUnique(c, a, o, fields, i);
          return Err(NotAllowed(field, value));
        }
        validated := validated[field := VStr(value)];
      }
      i := i + 1;
    }
    assert fields[..i] == fields;
    r := Ok(validated);
  }

  lemma NothingKept(c: Conversions, a: Allowlists, o: Payload)
    ensures KeptOf(c, a, o, Elements([])) == map[]
  {
  }

  /** The numeric fields, dropped rather than refused, and the free-form one, cut to size. */
  method AddNumbersAndText(c: Conversions, a: Allowlists, o: Payload, strings: Payload, ghost names: set<string>)
    returns (validated: Payload)
    requires strings == KeptOf(c, a, o, names)
    ensures validated == KeptOf(c, a, o, names + {"steps"} + {"cfg_scale"} + {"negative_prompt"})
  {
    hide KeptOf;
    assert "steps"[0] == 's' && "cfg_scale"[0] == 'c' && "negative_prompt"[0] == 'n';
    KeptOfAdd(c, a, o, names, "steps");
    KeptOfAdd(c, a, o, names + {"steps"}, "cfg_scale");
    KeptOfAdd(c, a, o, names + {"steps"} + {"cfg_scale"}, "negative_prompt");
    validated := strings;
    if "steps" in o {
      var steps := c.integer(o["steps"]);
      if steps.Some? && a.minSteps <= steps.value <= a.maxSteps {
        validated := validated["steps" := VInt(steps.value)];
      }
    }
    if "cfg_scale" in o {
      var cfg := c.number(o["cfg_scale"]);
      if cfg.Some? && a.minCfgScale <= cfg.value <= a.maxCfgScale {
        validated := validated["cfg_scale" := VReal(cfg.value)];
      }
    }
    if "negative_prompt" in o {
      validated := validated["negative_prompt" := VStr(Head(c.text(o["negative_prompt"]), a.maxNegativePromptChars))];
    }
  }

  method ValidateOverrides(c: Conversions, a: Allowlists, overrides: Value) returns (r: Result<Payload, OverrideError>)
    ensures r == Validated(c, a, overrides)
  {
    if overrides.VNull? { return Ok(map[]); }
    if !overrides.VObj? { return Err(NotAnObject); }
    var o := overrides.fields;
    var unknown := o.Keys - ALL_OVERRIDE_KEYS;
    if unknown != {} { return Err(UnknownKeys(unknown)); }
    FieldNames();
    hide KeptOf, FieldFault, FirstFaultOf;
    var strings := ValidateStrings(c, a, o, STRING_FIELDS);
    if strings.Err? { return strings; }
    var validated := AddNumbersAndText(c, a, o, strings.value, Elements(STRING_FIELDS));
    assert Elements(STRING_FIELDS) + {"steps"} + {"cfg_scale"} + {"negative_prompt"} == ALL_OVERRIDE_KEYS;
    r := Ok(validated);
  }

  // ---- properties ---------------------------------------------------------------------------

  /** Callers never need to re-check: every returned value is allowlisted or within its range. */
  lemma ValidatedIsInRange(c: Conversions, a: Allowlists, v: Value)
    requires Validated(c, a, v).Ok?
    ensures var r := Validated(c, a, v).value;
            && r.Keys <= ALL_OVERRIDE_KEYS
            && (forall f :: f in STRING_FIELDS && f in r ==> r[f].VStr? && r[f].s in AllowlistOf(a, f))
            && ("steps" in r ==> r["steps"].VInt? && a.minSteps <= r["steps"].n <= a.maxSteps)
            && ("cfg_scale" in r ==> r["cfg_scale"].VReal? && a.minCfgScale <= r["cfg_scale"].r <= a.maxCfgScale)
            && ("negative_prompt" in r ==> r["negative_prompt"].VStr?)
  {
    hide AllowlistOf, Strip, FieldFault;
    if v.VObj? {
      var o, r := v.fields, Validated(c, a, v).value;
      FieldNames();
      forall f | f in STRING_FIELDS && f in r ensures r[f].VStr? && r[f].s in AllowlistOf(a, f) {
        assert f in Elements(STRING_FIELDS);
        FieldInRange(c, a, o, f);
      }
    }
  }

  lemma FieldInRange(c: Conversions, a: Allowlists, o: Payload, f: string)
    requires f in o && FieldFault(c, a, o, f).None?
    requires f != "steps" && f != "cfg_scale" && f != "negative_prompt"
    ensures Kept(c, a, o, f).Some? && Kept(c, a, o, f).value.VStr? && Kept(c, a, o, f).value.s in AllowlistOf(a, f)
  {
    hide AllowlistOf, Strip;
  }

  /** What a refusal says: that it is no object, which keys are unknown, or of a field that it cannot be
      overridden here, or that its value, without the blanks around it, is not one of those on offer. No
      overrides at all are an empty object. */
  lemma RefusalsSayWhy(c: Conversions, a: Allowlists, v: Value)
    ensures Validated(c, a, VNull) == Ok(map[])
    ensures !v.VNull? && !v.VObj? ==> Validated(c, a, v) == Err(NotAnObject)
    ensures v.VObj? && Validated(c, a, v).Err? ==>
              match Validated(c, a, v).error
              case NotAnObject => false
              case UnknownKeys(keys) => keys == v.fields.Keys - ALL_OVERRIDE_KEYS && keys != {}
              case NotEnabled(f) => f in STRING_FIELDS && f in v.fields && AllowlistOf(a, f) == {}
              case NotAllowed(f, x) =>
                f in STRING_FIELDS && f in v.fields && x == Strip(c.text(v.fields[f])) &&
                AllowlistOf(a, f) != {} && x !in AllowlistOf(a, f)
  {
    hide Strip, AllowlistOf;
    if v.VObj? && Validated(c, a, v).Err? && v.fields.Keys <= ALL_OVERRIDE_KEYS {
      var i: nat :| FirstFault(c, a, v.fields, STRING_FIELDS, i) &&
                    FirstFaultOf(c, a, v.fields, STRING_FIELDS) == FieldFault(c, a, v.fields, STRING_FIELDS[i]);
      assert STRING_FIELDS[i] in STRING_FIELDS;
    }
  }

  /** Which requests pass: an object of known keys only, whose text fields, blanks aside, are each in its own
      allowlist. */
  lemma AcceptedIff(c: Conversions, a: Allowlists, o: Payload)
    ensures Validated(c, a, VObj(o)).Ok? <==>
              && o.Keys <= {"checkpoint_name", "diffusion_model_name", "clip_name", "vae_name", "sampler_name", "scheduler",
                            "steps", "cfg_scale", "negative_prompt"}
              && ("checkpoint_name" in o ==> Strip(c.text(o["checkpoint_name"])) in a.checkpoints)
              && ("diffusion_model_name" in o ==> Strip(c.text(o["diffusion_model_name"])) in a.diffusionModels)
              && ("clip_name" in o ==> Strip(c.text(o["clip_name"])) in a.clips)
              && ("vae_name" in o ==> Strip(c.text(o["vae_name"])) in a.vaes)
              && ("sampler_name" in o ==> Strip(c.text(o["sampler_name"])) in a.samplers)
              && ("scheduler" in o ==> Strip(c.text(o["scheduler"])) in a.schedulers)
  {
    FieldNames();
    TextFaults(c, a, o);
    AllowlistsByField(a);
    NoFaultIff(c, a, o, "checkpoint_name");
    NoFaultIff(c, a, o, "diffusion_model_name");
    NoFaultIff(c, a, o, "clip_name");
    NoFaultIff(c, a, o, "vae_name");
    NoFaultIff(c, a, o, "sampler_name");
    NoFaultIff(c, a, o, "scheduler");
    hide Strip, FieldFault, FirstFaultOf, AllowlistOf, KeptOf;
  }

  lemma NoFaultIff(c: Conversions, a: Allowlists, o: Payload, f: string)
    ensures FieldFault(c, a, o, f).None? <==> (f in o ==> Strip(c.text(o[f])) in AllowlistOf(a, f))
  {
    hide Strip, AllowlistOf;
  }

  lemma AllowlistsByField(a: Allowlists)
    ensures AllowlistOf(a, "checkpoint_name") == a.checkpoints && AllowlistOf(a, "diffusion_model_name") == a.diffusionModels
    ensures AllowlistOf(a, "clip_name") == a.clips && AllowlistOf(a, "vae_name") == a.vaes
    ensures AllowlistOf(a, "sampler_name") == a.samplers && AllowlistOf(a, "scheduler") == a.schedulers
  {
    FieldsDiffer();
  }

  lemma TextFaults(c: Conversions, a: Allowlists, o: Payload)
    ensures FirstFaultOf(c, a, o, STRING_FIELDS).None? <==>
              && FieldFault(c, a, o, "checkpoint_name").None? && FieldFault(c, a, o, "diffusion_model_name").None?
              && FieldFault(c, a, o, "clip_name").None? && FieldFault(c, a, o, "vae_name").None?
              && FieldFault(c, a, o, "sampler_name").None? && FieldFault(c, a, o, "scheduler").None?
  {
    TextFields();
    hide *;
  }

  lemma TextFields()
    ensures forall f :: f in STRING_FIELDS <==>
              f == "checkpoint_name" || f == "diffusion_model_name" || f == "clip_name" || f == "vae_name" ||
              f == "sampler_name" || f == "scheduler"
  {
    var fs := STRING_FIELDS;
    assert fs[0] in fs && fs[1] in fs && fs[2] in fs && fs[3] in fs && fs[4] in fs && fs[5] in fs;
  }

  lemma KeptNumbers(c: Conversions, a: Allowlists, o: Payload, n: int, x: real, text: string)
    requires Faithful(c) && 0 <= a.maxNegativePromptChars
    ensures "steps" in o && o["steps"] == VInt(n) ==>
              Kept(c, a, o, "steps") == if a.minSteps <= n <= a.maxSteps then Some(VInt(n)) else None
    ensures "cfg_scale" in o && o["cfg_scale"] == VReal(x) ==>
              Kept(c, a, o, "cfg_scale") == if a.minCfgScale <= x <= a.maxCfgScale then Some(VReal(x)) else None
    ensures "negative_prompt" in o && o["negative_prompt"] == VStr(text) ==>
              Kept(c, a, o, "negative_prompt") == Some(VStr(text[..Min(|text|, a.maxNegativePromptChars)]))
  {
    assert "steps"[0] == 's' && "cfg_scale"[0] == 'c' && "negative_prompt"[0] == 'n';
    hide Strip;
  }

  lemma KeptTexts(c: Conversions, a: Allowlists, o: Payload, f: string)
    requires f in STRING_FIELDS && f in o
    ensures f in ALL_OVERRIDE_KEYS && Kept(c, a, o, f) == Some(VStr(Strip(c.text(o[f]))))
  {
    FieldNames();
    assert f in Elements(STRING_FIELDS);
    hide Strip;
  }

  lemma AbsentIsDropped(c: Conversions, a: Allowlists, o: Payload)
    ensures forall key :: key !in o ==> Kept(c, a, o, key) == None
  {
  }

  /** A number in range is kept as it was asked for and one out of range dropped, the negative prompt is cut to
      its limit, and the other texts lose the blanks around them. */
  lemma NumbersAreKeptIff(c: Conversions, a: Allowlists, o: Payload, n: int, x: real, text: string)
    requires Faithful(c) && Validated(c, a, VObj(o)).Ok? && 0 <= a.maxNegativePromptChars
    ensures var r := Validated(c, a, VObj(o)).value;
            && ("steps" in o && o["steps"] == VInt(n) ==>
                  if a.minSteps <= n <= a.maxSteps then "steps" in r && r["steps"] == VInt(n) else "steps" !in r)
            && ("cfg_scale" in o && o["cfg_scale"] == VReal(x) ==>
                  if a.minCfgScale <= x <= a.maxCfgScale then "cfg_scale" in r && r["cfg_scale"] == VReal(x)
                  else "cfg_scale" !in r)
            && ("negative_prompt" in o && o["negative_prompt"] == VStr(text) ==>
                  "negative_prompt" in r && r["negative_prompt"] == VStr(text[..Min(|text|, a.maxNegativePromptChars)]))
            && (forall f :: f in STRING_FIELDS && f in o ==> f in r && r[f] == VStr(Strip(c.text(o[f]))))
            && r.Keys <= o.Keys
  {
    hide Strip, Kept, FieldFault, FirstFaultOf, Faithful;
    KeptNumbers(c, a, o, n, x, text);
    AbsentIsDropped(c, a, o);
    forall f | f in STRING_FIELDS && f in o
      ensures f in ALL_OVERRIDE_KEYS && Kept(c, a, o, f) == Some(VStr(Strip(c.text(o[f]))))
    {
      KeptTexts(c, a, o, f);
    }
  }

  /** Validating what validation returned changes nothing, for every request, exactly when the length
      limit of the negative prompt is not negative. */
  lemma ValidationIdempotentIff(c: Conversions, a: Allowlists)
    requires Faithful(c)
    ensures (forall v :: Validated(c, a, v).Ok? ==> Validated(c, a, VObj(Validated(c, a, v).value)) == Validated(c, a, v))
            <==> a.maxNegativePromptChars >= 0
  {
    if a.maxNegativePromptChars >= 0 {
      forall v | Validated(c, a, v).Ok?
        ensures Validated(c, a, VObj(Validated(c, a, v).value)) == Validated(c, a, v)
      {
        ValidationIdempotent(c, a, v);
      }
    } else {
      CutTwice(c, a);
    }
  }

  /** A negative limit counts from the end, so the second validation cuts again. */
  lemma CutTwice(c: Conversions, a: Allowlists)
    requires Faithful(c) && a.maxNegativePromptChars < 0
    ensures exists v :: Validated(c, a, v).Ok? && Validated(c, a, VObj(Validated(c, a, v).value)) != Validated(c, a, v)
  {
    FieldNames();
    var text := seq(1 - a.maxNegativePromptChars, i => 'x');
    var once := Head(text, a.maxNegativePromptChars);
    var twice := Head(once, a.maxNegativePromptChars);
    assert |once| == 1 && |twice| == 0;
    OnlyPrompt(c, a, text);
    OnlyPrompt(c, a, once);
    var v := VObj(map["negative_prompt" := VStr(text)]);
    assert map["negative_prompt" := VStr(once)]["negative_prompt"] != map["negative_prompt" := VStr(twice)]["negative_prompt"];
    assert Validated(c, a, VObj(Validated(c, a, v).value)) != Validated(c, a, v);
  }

  lemma OnlyPrompt(c: Conversions, a: Allowlists, text: string)
    requires Faithful(c)
    ensures Validated(c, a, VObj(map["negative_prompt" := VStr(text)])) ==
            Ok(map["negative_prompt" := VStr(Head(text, a.maxNegativePromptChars))])
  {
    FieldNames();
    var o: Payload := map["negative_prompt" := VStr(text)];
    forall f | f in STRING_FIELDS ensures FieldFault(c, a, o, f).None? {
      assert f in Elements(STRING_FIELDS);
    }
    assert KeptOf(c, a, o, ALL_OVERRIDE_KEYS) == map["negative_prompt" := VStr(Head(text, a.maxNegativePromptChars))];
  }

  lemma ValidationIdempotent(c: Conversions, a: Allowlists, v: Value)
    requires Faithful(c) && a.maxNegativePromptChars >= 0
    requires Validated(c, a, v).Ok?
    ensures Validated(c, a, VObj(Validated(c, a, v).value)) == Validated(c, a, v)
  {
    if v.VNull? {
      assert KeptOf(c, a, map[], ALL_OVERRIDE_KEYS) == map[];
    } else {
      hide KeptOf, FieldFault, FirstFaultOf;
      KeptIdempotent(c, a, v.fields, Validated(c, a, v).value);
      KeptKeys(c, a, v.fields);
    }
  }

  lemma KeptKeys(c: Conversions, a: Allowlists, o: Payload)
    ensures KeptOf(c, a, o, ALL_OVERRIDE_KEYS).Keys <= ALL_OVERRIDE_KEYS
  {
  }

  lemma KeptIdempotent(c: Conversions, a: Allowlists, o: Payload, kept: Payload)
    requires Faithful(c) && a.maxNegativePromptChars >= 0
    requires kept == KeptOf(c, a, o, ALL_OVERRIDE_KEYS) && FirstFaultOf(c, a, o, STRING_FIELDS).None?
    ensures FirstFaultOf(c, a, kept, STRING_FIELDS).None?
    ensures KeptOf(c, a, kept, ALL_OVERRIDE_KEYS) == kept
  {
    FieldNames();
    forall f | f in STRING_FIELDS ensures FieldFault(c, a, kept, f).None? {
      assert f in Elements(STRING_FIELDS) && FieldFault(c, a, o, f).None?;
      FaultAgain(c, a, o, kept, f);
    }
    hide Kept, FieldFault;
    forall key | key in ALL_OVERRIDE_KEYS ensures Kept(c, a, kept, key) == Kept(c, a, o, key) {
      KeptAgain(c, a, o, kept, key);
    }
  }

  lemma FaultAgain(c: Conversions, a: Allowlists, o: Payload, kept: Payload, f: string)
    requires Faithful(c) && kept == KeptOf(c, a, o, ALL_OVERRIDE_KEYS)
    requires f in ALL_OVERRIDE_KEYS && f != "steps" && f != "cfg_scale" && f != "negative_prompt"
    requires FieldFault(c, a, o, f).None?
    ensures FieldFault(c, a, kept, f).None?
  {
    hide AllowlistOf;
    if f in o { StripIdempotent(c.text(o[f])); }
  }

  lemma KeptAgain(c: Conversions, a: Allowlists, o: Payload, kept: Payload, key: string)
    requires Faithful(c) && a.maxNegativePromptChars >= 0
    requires kept == KeptOf(c, a, o, ALL_OVERRIDE_KEYS) && key in ALL_OVERRIDE_KEYS
    ensures Kept(c, a, kept, key) == Kept(c, a, o, key)
  {
    if key in o {
      StripIdempotent(c.text(o[key]));
      HeadIdempotentIff(a.maxNegativePromptChars);
    }
  }

  // ---- profiles -------------------------------------------------------------------------------

  const DEFAULT_PROFILE_KEY: string := "student"

  datatype ProfileError = UnknownProfile(key: string) | NotText

  /** (requested or "").strip() or the default; a truthy value that is not text has no strip(). */
  function ResolveProfileKey(available: set<string>, requested: Value): Result<string, ProfileError> {
    if Truthy(requested) && !requested.VStr? then Err(NotText)
    else
      var stripped := if Truthy(requested) then Strip(requested.s) else "";
      var key := if stripped == "" then DEFAULT_PROFILE_KEY else stripped;
      if key in available then Ok(key) else Err(UnknownProfile(key))
  }

  /** A resolved key resolves to itself. */
  lemma ResolveIdempotent(available: set<string>, requested: Value)
    requires ResolveProfileKey(available, requested).Ok?
    ensures ResolveProfileKey(available, VStr(ResolveProfileKey(available, requested).value)) ==
            ResolveProfileKey(available, requested)
    ensures ResolveProfileKey(available, requested).value in available
  {
    StripNothing(DEFAULT_PROFILE_KEY);
    if requested.VStr? { StripIdempotent(requested.s); }
  }

  /** A request that names a profile gets that one if there is one; a blank or missing name stands for the
      student profile. */
  lemma NamedOrStudent(available: set<string>, name: string)
    ensures Strip(name) != "" ==>
              ResolveProfileKey(available, VStr(name)) ==
              if Strip(name) in available then Ok(Strip(name)) else Err(UnknownProfile(Strip(name)))
    ensures Strip(name) == "" ==> ResolveProfileKey(available, VStr(name)) == ResolveProfileKey(available, VNull)
    ensures ResolveProfileKey(available, VNull) ==
            if "student" in available then Ok("student") else Err(UnknownProfile("student"))
    ensures forall v :: Truthy(v) && !v.VStr? ==> ResolveProfileKey(available, v) == Err(NotText)
  {
    assert Strip("") == "";
  }

  datatype Profile = Profile(
    key: string, checkpointName: string, modelFamily: string, diffusionModelName: string,
    clipName: string, vaeName: string, modelSamplingShift: real, samplerName: string,
    scheduler: string, steps: int, cfgScale: real, negativePrompt: string)

  function TextOr(o: Payload, key: string, default: string): string {
    if key in o && o[key].VStr? then o[key].s else default
  }

  /** dataclasses.replace(profile, **overrides). */
  function Replaced(p: Profile, o: Payload): Profile {
    p.(checkpointName := TextOr(o, "checkpoint_name", p.checkpointName),
       diffusionModelName := TextOr(o, "diffusion_model_name", p.diffusionModelName),
       clipName := TextOr(o, "clip_name", p.clipName),
       vaeName := TextOr(o, "vae_name", p.vaeName),
       samplerName := TextOr(o, "sampler_name", p.samplerName),
       scheduler := TextOr(o, "scheduler", p.scheduler),
       steps := if "steps" in o && o["steps"].VInt? then o["steps"].n else p.steps,
       cfgScale := if "cfg_scale" in o && o["cfg_scale"].VReal? then o["cfg_scale"].r else p.cfgScale,
       negativePrompt := TextOr(o, "negative_prompt", p.negativePrompt))
  }

  /** The caller's terms after the profile's own. */
  function JoinedTerms(baseline: string, caller: string): string {
    if baseline != "" && caller != "" then baseline + ", " + caller
    else if caller != "" then caller else baseline
  }

  /** What apply_overrides is for: every override replaces, except that the profile's negative
      prompt is a floor the caller's terms are added to. */
  function Layered(p: Profile, v: Payload): Profile {
    Replaced(p, v).(negativePrompt :=
      if "negative_prompt" in v && v["negative_prompt"].VStr?
      then JoinedTerms(Strip(p.negativePrompt), Strip(v["negative_prompt"].s))
      else p.negativePrompt)
  }

  /** apply_overrides pops and sets keys of a local copy. */
  method ApplyOverrides(p: Profile, validated: Payload) returns (r: Profile)
    requires "negative_prompt" in validated ==> validated["negative_prompt"].VStr?
    ensures r == Layered(p, validated)
  {
    hide Strip;
    if validated == map[] { return p; }
    var overrides := validated;
    if "negative_prompt" in overrides {
      var callerTerms := Strip(overrides["negative_prompt"].s);
      overrides := overrides - {"negative_prompt"};
      var baselineTerms := Strip(p.negativePrompt);
      if callerTerms != "" && baselineTerms != "" {
        overrides := overrides["negative_prompt" := VStr(baselineTerms + ", " + callerTerms)];
      } else {
        overrides := overrides["negative_prompt" := VStr(if callerTerms != "" then callerTerms else baselineTerms)];
      }
    }
    if overrides == map[] { return p; }
    r := Replaced(p, overrides);
  }

  /** Whatever a caller sends, the profile's own terms stay in front; and the fields that pick the
      graph (key, family, sampling shift) are out of reach. */
  lemma BaselineTermsStay(p: Profile, v: Payload)
    ensures "negative_prompt" in v && v["negative_prompt"].VStr? ==>
              && Strip(p.negativePrompt) <= Layered(p, v).negativePrompt
              && Strip(v["negative_prompt"].s) <= Layered(p, v).negativePrompt[
                   |Layered(p, v).negativePrompt| - |Strip(v["negative_prompt"].s)|..]
    ensures Layered(p, v).key == p.key && Layered(p, v).modelFamily == p.modelFamily
    ensures Layered(p, v).modelSamplingShift == p.modelSamplingShift
  {
  }

  /** Each text override lands on its own field and on no other. */
  lemma OverrideLands(p: Profile, v: Payload, x: string)
    ensures Layered(p, v["checkpoint_name" := VStr(x)]) == Layered(p, v).(checkpointName := x)
    ensures Layered(p, v["diffusion_model_name" := VStr(x)]) == Layered(p, v).(diffusionModelName := x)
    ensures Layered(p, v["clip_name" := VStr(x)]) == Layered(p, v).(clipName := x)
    ensures Layered(p, v["vae_name" := VStr(x)]) == Layered(p, v).(vaeName := x)
    ensures Layered(p, v["sampler_name" := VStr(x)]) == Layered(p, v).(samplerName := x)
    ensures Layered(p, v["scheduler" := VStr(x)]) == Layered(p, v).(scheduler := x)
  {
    LandsAlone(p, v, 0, x);
    LandsAlone(p, v, 1, x);
    LandsAlone(p, v, 2, x);
    LandsAlone(p, v, 3, x);
    LandsAlone(p, v, 4, x);
    LandsAlone(p, v, 5, x);
    hide Layered;
  }

  /** The profile with the i-th text field set. */
  function WithText(p: Profile, i: nat, x: string): Profile {
    match i
    case 0 => p.(checkpointName := x)
    case 1 => p.(diffusionModelName := x)
    case 2 => p.(clipName := x)
    case 3 => p.(vaeName := x)
    case 4 => p.(samplerName := x)
    case _ => p.(scheduler := x)
  }

  lemma LandsAlone(p: Profile, v: Payload, i: nat, x: string)
    requires i < 6
    ensures Layered(p, v[STRING_FIELDS[i] := VStr(x)]) == WithText(Layered(p, v), i, x)
  {
    hide JoinedTerms, Strip;
    FieldsDiffer();
    var w := v[STRING_FIELDS[i] := VStr(x)];
    forall k | 0 <= k < 6 ensures forall d :: TextOr(w, STRING_FIELDS[k], d) == if k == i then x else TextOr(v, STRING_FIELDS[k], d) {
      assert k != i ==> STRING_FIELDS[k] != STRING_FIELDS[i];
    }
    assert STRING_FIELDS[i] != "steps" && STRING_FIELDS[i] != "cfg_scale" && STRING_FIELDS[i] != "negative_prompt";
    hide TextOr;
  }

  lemma FieldsDiffer()
    ensures var ks := ["checkpoint_name", "diffusion_model_name", "clip_name", "vae_name", "sampler_name", "scheduler",
                       "steps", "cfg_scale", "negative_prompt"];
            forall i, j :: 0 <= i < j < |ks| ==> ks[i] != ks[j]
  {
    assert "checkpoint_name"[1] == 'h' && "diffusion_model_name"[1] == 'i' && "clip_name"[1] == 'l';
    assert "vae_name"[0] == 'v' && "sampler_name"[1] == 'a' && "scheduler"[1] == 'c' && "sampler_name"[0] == 's';
    assert "steps"[1] == 't' && "cfg_scale"[1] == 'f' && "negative_prompt"[1] == 'e';
  }

  /** So does the scale; the negative prompt is joined to the profile's own by a comma, unless one is blank; and
      no override leaves the profile as it is. */
  lemma ScaleAndTermsLand(p: Profile, v: Payload, x: real, text: string)
    ensures Layered(p, v["cfg_scale" := VReal(x)]) == Layered(p, v).(cfgScale := x)
    ensures Layered(p, map[]) == p
    ensures var own, terms := Strip(p.negativePrompt), Strip(text);
            Layered(p, v["negative_prompt" := VStr(text)]) ==
            Layered(p, v).(negativePrompt :=
              if own == "" then terms else if terms == "" then own else own + ", " + terms)
  {
    FieldsDiffer();
    hide Strip;
  }

  /** A preview's forced step count changes the step count and nothing else. */
  lemma PreviewOnlyChangesSteps(p: Profile, v: Payload, steps: int)
    ensures Layered(p, v["steps" := VInt(steps)]) == Layered(p, v).(steps := steps)
  {
    assert "steps"[0] == 's' && "steps"[1] == 't';
    assert "checkpoint_name"[1] == 'h' && "diffusion_model_name"[1] == 'i' && "clip_name"[1] == 'l';
    assert "vae_name"[1] == 'a' && "sampler_name"[1] == 'a' && "scheduler"[1] == 'c';
    assert "cfg_scale"[1] == 'f' && "negative_prompt"[1] == 'e';
  }
}
