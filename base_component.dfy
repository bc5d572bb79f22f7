/**
 * The validating initialiser shared by the form components: it checks and
 * stores name, id, label, CSS classes, type against the allowed types, and
 * turns the options argument into a list of value/label pairs. Each thrown
 * `InvalidArgumentException` becomes an `InitError`.
 */
module BaseComponent {

  import opened Wrappers
  import opened PhpValues

  /** The constructor arguments, as Blade binds them. `type` is null or a string. */
  datatype Params = Params(
    name: string,
    id: string,
    value: Value,
    labelText: string,
    noLabel: Value,
    required: Value,
    disabled: Value,
    readonly: Value,
    cssClasses: Value,
    inputType: Option<string>,
    allowedTypes: Value,
    options: Value
  )

  /** One `InvalidArgumentException` per check, in the order the checks run. */
  datatype InitError =
    | NameRequired
    | LabelRequired
    | CssClassesInvalid
    | AllowedTypesInvalid
    | TypeNotAllowed
    | OptionsInvalid
    | OptionKeysMissing

  /** One element of the prepared options collection (its random `id` is not modelled). */
  datatype PreparedOption = PreparedOption(value: Value, optionLabel: Value)

  /** The properties `initializeBaseProperties` leaves on the component; None is an unset (null) property. */
  datatype Props = Props(
    name: string,
    id: string,
    value: Value,
    labelText: string,
    noLabel: Value,
    required: Value,
    disabled: Value,
    readonly: Value,
    cssClasses: Option<string>,
    inputType: Option<string>,
    allowedTypes: Value,
    options: Option<seq<PreparedOption>>
  )

  /** `trim($inputType) === ''`, where `trim(null)` is "". */
  predicate IsBlankType(t: Option<string>)
  {
    t.None? || IsBlank(t.value)
  }

  /** `in_array($inputType, $allowedTypes)`, comparing strings exactly. */
  predicate InArray(t: string, entries: seq<(Key, Value)>)
  {
    exists i :: 0 <= i < |entries| && entries[i].1 == Str(t)
  }

  /**
   * The CSS classes step: a truthy string is kept verbatim, a truthy array is
   * turned into a class string, any other truthy value is rejected, and a
   * falsy value leaves the property unset.
   */
  function ResolveCssClasses(css: Value, toCssClasses: seq<(Key, Value)> -> string): (r: Result<Option<string>, InitError>)
    ensures !IsTruthy(css) ==> r == Success(None)
    ensures IsTruthy(css) && css.Str? ==> r == Success(Some(css.s))
    ensures IsTruthy(css) && css.Arr? ==> r == Success(Some(toCssClasses(css.entries)))
    ensures r.Failure? <==> IsTruthy(css) && !css.Str? && !css.Arr?
    ensures r.Failure? ==> r.error == CssClassesInvalid
  {
    if !IsTruthy(css) then Success(None)
    else match css
      case Str(s) => Success(Some(s))
      case Arr(e) => Success(Some(toCssClasses(e)))
      case _ => Failure(CssClassesInvalid)
  }

  /**
   * The type step, giving the stored `type` and `allowedTypes`. With truthy
   * allowed types that are not an array it fails; a non-blank type must be one
   * of them; a blank type leaves `type` unset. With falsy allowed types the
   * type is copied through unchecked.
   */
  function ResolveType(t: Option<string>, allowed: Value): (r: Result<(Option<string>, Value), InitError>)
    ensures !IsTruthy(allowed) ==> r == Success((t, Null))
    ensures IsTruthy(allowed) && !allowed.Arr? ==> r == Failure(AllowedTypesInvalid)
    ensures IsTruthy(allowed) && allowed.Arr? && IsBlankType(t) ==> r == Success((None, allowed))
    ensures IsTruthy(allowed) && allowed.Arr? && !IsBlankType(t) ==>
      (if InArray(t.value, allowed.entries) then r == Success((t, allowed)) else r == Failure(TypeNotAllowed))
  {
    if !IsTruthy(allowed) then Success((t, Null))
    else if !allowed.Arr? || |allowed.entries| == 0 then Failure(AllowedTypesInvalid)
    else if !IsBlankType(t) && InArray(t.value, allowed.entries) then Success((t, allowed))
    else if !IsBlankType(t) then Failure(TypeNotAllowed)
    else Success((None, allowed))
  }

  /** An element `prepareOptions` accepts: an array holding both a `value` and a `label` key. */
  predicate IsOption(v: Value)
  {
    v.Arr? && Lookup(v.entries, StrKey("value")).Some? && Lookup(v.entries, StrKey("label")).Some?
  }

  function ToPrepared(v: Value): PreparedOption
    requires IsOption(v)
  {
    PreparedOption(Lookup(v.entries, StrKey("value")).value, Lookup(v.entries, StrKey("label")).value)
  }

  /** The elements `foreach` visits: an array's values, or an object's properties after an `(array)` cast. */
  function Elements(options: Value): (r: Option<seq<Value>>)
    ensures r.Some? <==> options.Arr? || options.Obj?
  {
    match options
    case Arr(e) => Some(seq(|e|, i requires 0 <= i < |e| => e[i].1))
    case Obj(p) => Some(seq(|p|, i requires 0 <= i < |p| => p[i].1))
    case _ => None
  }

  /** The elements walked are the values of the array or object, one per entry, in order. */
  lemma ElementsAreValues(options: Value)
    ensures options.Arr? ==>
      && Elements(options).Some? && |Elements(options).value| == |options.entries|
      && forall i :: 0 <= i < |options.entries| ==> Elements(options).value[i] == options.entries[i].1
    ensures options.Obj? ==>
      && Elements(options).Some? && |Elements(options).value| == |options.props|
      && forall i :: 0 <= i < |options.props| ==> Elements(options).value[i] == options.props[i].1
  {
  }


  /** The prepared elements, failing at the first one that is not an option. */
  function PrepareAll(items: seq<Value>): (r: Result<seq<PreparedOption>, InitError>)
    ensures r.Success? <==> forall i :: 0 <= i < |items| ==> IsOption(items[i])
    ensures r.Success? ==>
      (&& |r.value| == |items|
       && forall i :: 0 <= i < |items| ==> r.value[i] == ToPrepared(items[i]))
    ensures r.Failure? ==> r.error == OptionKeysMissing
  {
    if items == [] then Success([])
    else if !IsOption(items[0]) then Failure(OptionKeysMissing)
    else
      match PrepareAll(items[1..])
      case Success(rest) => Success([ToPrepared(items[0])] + rest)
      case Failure(e) => Failure(e)
  }

  /**
   * `prepareOptions`: non-array, non-object input is rejected; otherwise every
   * element must carry `value` and `label`, and the result keeps their
   * number, order, values and labels.
   */
  function PreparedOptions(options: Value): (r: Result<seq<PreparedOption>, InitError>)
    ensures Elements(options).None? ==> r == Failure(OptionsInvalid)
    ensures Elements(options).Some? ==> r == PrepareAll(Elements(options).value)
  {
    match Elements(options)
    case None => Failure(OptionsInvalid)
    case Some(items) => PrepareAll(items)
  }

  /**
   * `initializeBaseProperties` as a whole: the checks run in source order
   * (name, label, CSS classes, type, options) and the first failing one decides
   * the error.
   */
  function Initialize(p: Params, toCssClasses: seq<(Key, Value)> -> string): (r: Result<Props, InitError>)
    ensures IsBlank(p.name) ==> r == Failure(NameRequired)
    ensures !IsBlank(p.name) && !IsTruthy(p.noLabel) && IsBlank(p.labelText) ==> r == Failure(LabelRequired)
    ensures r.Success? ==> r.value.name == p.name && r.value.labelText == p.labelText && r.value.value == p.value
    ensures r.Success? ==> r.value.id == (if Truthy(p.id) then p.id else p.name)
    ensures r.Success? ==> Success(r.value.cssClasses) == ResolveCssClasses(p.cssClasses, toCssClasses)
    ensures r.Success? ==> Success((r.value.inputType, r.value.allowedTypes)) == ResolveType(p.inputType, p.allowedTypes)
    ensures r.Success? ==> (r.value.options.None? <==> !IsTruthy(p.options))
    ensures r.Success? && IsTruthy(p.options) ==> Success(r.value.options.value) == PreparedOptions(p.options)
    ensures r.Success? ==>
      && r.value.noLabel == p.noLabel && r.value.required == p.required
      && r.value.disabled == p.disabled && r.value.readonly == p.readonly
    ensures r.Success? <==>
      && !IsBlank(p.name)
      && (IsTruthy(p.noLabel) || !IsBlank(p.labelText))
      && ResolveCssClasses(p.cssClasses, toCssClasses).Success?
      && ResolveType(p.inputType, p.allowedTypes).Success?
      && (!IsTruthy(p.options) || PreparedOptions(p.options).Success?)
    ensures !IsBlank(p.name) && (IsTruthy(p.noLabel) || !IsBlank(p.labelText)) ==>
      && (ResolveCssClasses(p.cssClasses, toCssClasses).Failure? ==>
            r == Failure(ResolveCssClasses(p.cssClasses, toCssClasses).error))
      && (ResolveCssClasses(p.cssClasses, toCssClasses).Success? && ResolveType(p.inputType, p.allowedTypes).Failure? ==>
            r == Failure(ResolveType(p.inputType, p.allowedTypes).error))
      && (&& ResolveCssClasses(p.cssClasses, toCssClasses).Success? && ResolveType(p.inputType, p.allowedTypes).Success?
          && IsTruthy(p.options) && PreparedOptions(p.options).Failure? ==>
            r == Failure(PreparedOptions(p.options).error))
  {
    if IsBlank(p.name) then Failure(NameRequired)
    else if !IsTruthy(p.noLabel) && IsBlank(p.labelText) then Failure(LabelRequired)
    else CheckedProps(p, toCssClasses)
  }

  /**
   * With `noLabel` truthy the label is not checked: an empty label is stored
   * as given, and the outcome depends on the later steps only.
   */
  lemma NoLabelKeepsEmptyLabel(p: Params, toCssClasses: seq<(Key, Value)> -> string)
    requires !IsBlank(p.name) && IsTruthy(p.noLabel) && p.labelText == ""
    requires ResolveCssClasses(p.cssClasses, toCssClasses).Success?
    requires ResolveType(p.inputType, p.allowedTypes).Success?
    requires !IsTruthy(p.options)
    ensures Initialize(p, toCssClasses).Success?
    ensures Initialize(p, toCssClasses).value.labelText == ""
    ensures Initialize(p, toCssClasses).value.options.None?
  {
  }

  /** The steps after name and label have passed: CSS classes, type, then options. */
  function CheckedProps(p: Params, toCssClasses: seq<(Key, Value)> -> string): (r: Result<Props, InitError>)
    ensures ResolveCssClasses(p.cssClasses, toCssClasses).Failure? ==>
      r == Failure(ResolveCssClasses(p.cssClasses, toCssClasses).error)
    ensures ResolveCssClasses(p.cssClasses, toCssClasses).Success? && ResolveType(p.inputType, p.allowedTypes).Failure? ==>
      r == Failure(ResolveType(p.inputType, p.allowedTypes).error)
    ensures r.Success? <==>
      && ResolveCssClasses(p.cssClasses, toCssClasses).Success?
      && ResolveType(p.inputType, p.allowedTypes).Success?
      && (!IsTruthy(p.options) || PreparedOptions(p.options).Success?)
    ensures r.Success? ==> r.value.name == p.name && r.value.labelText == p.labelText && r.value.noLabel == p.noLabel
  {
    match ResolveCssClasses(p.cssClasses, toCssClasses)
    case Failure(e) => Failure(e)
    case Success(css) =>
      match ResolveType(p.inputType, p.allowedTypes)
      case Failure(e) => Failure(e)
      case Success(typed) =>
        if !IsTruthy(p.options) then Success(Assemble(p, css, typed, None))
        else
          match PreparedOptions(p.options)
          case Failure(e) => Failure(e)
          case Success(opts) => Success(Assemble(p, css, typed, Some(opts)))
  }

  function Assemble(p: Params, css: Option<string>, typed: (Option<string>, Value),
                    opts: Option<seq<PreparedOption>>): Props
  {
    Props(p.name, if Truthy(p.id) then p.id else p.name, p.value, p.labelText, p.noLabel,
          p.required, p.disabled, p.readonly, css, typed.0, typed.1, opts)
  }

  /** The component's base properties, assigned one by one by `initializeBaseProperties`. */
  class Component {
    var name: string
    var id: string
    var value: Value
    var labelText: string
    var noLabel: Value
    var required: Value
    var disabled: Value
    var readonly: Value
    var cssClasses: Option<string>
    var inputType: Option<string>
    var allowedTypes: Value
    var options: Option<seq<PreparedOption>>

    /** The properties before initialisation: every one unset. */
    constructor ()
      ensures cssClasses.None? && inputType.None? && allowedTypes == Null && options.None?
    {
      name, id, value, labelText := "", "", Null, "";
      noLabel, required, disabled, readonly := Null, Null, Null, Null;
      cssClasses, inputType, allowedTypes, options := None, None, Null, None;
    }

    function Properties(): Props
      reads this
    {
      Props.Props(name, id, value, labelText, noLabel, required, disabled, readonly, cssClasses, inputType, allowedTypes, options)
    }

    /**
     * Validates and stores the parameters in order; `err` is the exception
     * thrown, after which the half-initialised component is discarded.
     */
    method InitializeBaseProperties(p: Params, toCssClasses: seq<(Key, Value)> -> string)
      returns (err: Option<InitError>)
      requires cssClasses.None? && inputType.None? && allowedTypes == Null && options.None?
      modifies this
      ensures err.None? <==> Initialize(p, toCssClasses).Success?
      ensures err.None? ==> Properties() == Initialize(p, toCssClasses).value
      ensures err.Some? ==> Initialize(p, toCssClasses) == Failure(err.value)
    {
      if IsBlank(p.name) {
        return Some(NameRequired);
      }
      name := p.name;
      id := if Truthy(p.id) then p.id else p.name;
      value := p.value;

      noLabel := p.noLabel;
      if !IsTruthy(noLabel) {
        if IsBlank(p.labelText) {
          return Some(LabelRequired);
        }
        labelText := p.labelText;
      } else {
        labelText := p.labelText;
      }

      err := StoreChecked(p, toCssClasses);
    }

    /** The steps after name and label have passed. */
    method StoreChecked(p: Params, toCssClasses: seq<(Key, Value)> -> string) returns (err: Option<InitError>)
      requires cssClasses.None? && inputType.None? && allowedTypes == Null && options.None?
      requires name == p.name && id == (if Truthy(p.id) then p.id else p.name) && value == p.value
      requires labelText == p.labelText && noLabel == p.noLabel
      modifies this
      ensures err.None? <==> CheckedProps(p, toCssClasses).Success?
      ensures err.None? ==> Properties() == CheckedProps(p, toCssClasses).value
      ensures err.Some? ==> CheckedProps(p, toCssClasses) == Failure(err.value)
    {
      required, disabled, readonly := p.required, p.disabled, p.readonly;

      err := StoreCssClasses(p.cssClasses, toCssClasses);
      if err.Some? {
        return;
      }
      err := StoreType(p.inputType, p.allowedTypes);
      if err.Some? {
        return;
      }

      if IsTruthy(p.options) {
        var prepared := PrepareOptions(p.options);
        if prepared.Failure? {
          return Some(prepared.error);
        }
        options := Some(prepared.value);
      }
      assert Properties() == Assemble(p, cssClasses, (inputType, allowedTypes), options);
      return None;
    }

    /** The CSS classes step of `initializeBaseProperties`. */
    method StoreCssClasses(css: Value, toCssClasses: seq<(Key, Value)> -> string) returns (err: Option<InitError>)
      requires cssClasses.None?
      modifies this`cssClasses
      ensures err.None? <==> ResolveCssClasses(css, toCssClasses).Success?
      ensures err.None? ==> ResolveCssClasses(css, toCssClasses) == Success(cssClasses)
      ensures err.Some? ==> ResolveCssClasses(css, toCssClasses) == Failure(err.value)
    {
      err := None;
      if IsTruthy(css) {
        match css {
          case Str(s) => cssClasses := Some(s);
          case Arr(e) => cssClasses := Some(toCssClasses(e));
          case _ => err := Some(CssClassesInvalid);
        }
      }
    }

    /** The type and allowed-types step of `initializeBaseProperties`. */
    method StoreType(t: Option<string>, allowed: Value) returns (err: Option<InitError>)
      requires inputType.None? && allowedTypes == Null
      modifies this`inputType, this`allowedTypes
      ensures err.None? <==> ResolveType(t, allowed).Success?
      ensures err.None? ==> ResolveType(t, allowed) == Success((inputType, allowedTypes))
      ensures err.Some? ==> ResolveType(t, allowed) == Failure(err.value)
    {
      err := None;
      if IsTruthy(allowed) {
        if !allowed.Arr? || |allowed.entries| == 0 {
          return Some(AllowedTypesInvalid);
        }
        allowedTypes := allowed;
        if !IsBlankType(t) && InArray(t.value, allowed.entries) {
          inputType := t;
        } else if !IsBlankType(t) {
          return Some(TypeNotAllowed);
        }
      } else {
        inputType := t;
      }
    }

    /**
     * `prepareOptions`: walks the elements, pushing each one's value and label,
     * and stops at the first element lacking either key.
     */
    method PrepareOptions(options: Value) returns (r: Result<seq<PreparedOption>, InitError>)
      ensures r == PreparedOptions(options)
    {
      var items := Elements(options);
      if items.None? {
        return Failure(OptionsInvalid);
      }
      var elements := items.value;
      var response: seq<PreparedOption> := [];
      var i := 0;
      while i < |elements|
        invariant 0 <= i <= |elements|
        invariant forall k :: 0 <= k < i ==> IsOption(elements[k])
        invariant |response| == i
        invariant forall k :: 0 <= k < i ==> response[k] == ToPrepared(elements[k])
      {
        var option := elements[i];
        if !IsOption(option) {
          return Failure(OptionKeysMissing);
        }
        response := response + [ToPrepared(option)];
        i := i + 1;
      }
      assert PrepareAll(elements).value == response;
      return Success(response);
    }
  }

  /** `new Component(...)`: a component on success, the exception otherwise. */
  method Construct(p: Params, toCssClasses: seq<(Key, Value)> -> string) returns (r: Result<Component, InitError>)
    ensures r.Success? <==> Initialize(p, toCssClasses).Success?
    ensures r.Success? ==> fresh(r.value) && r.value.Properties() == Initialize(p, toCssClasses).value
    ensures r.Failure? ==> Initialize(p, toCssClasses) == Failure(r.error)
  {
    var c := new Component();
    var err := c.InitializeBaseProperties(p, toCssClasses);
    if err.Some? {
      return Failure(err.value);
    }
    return Success(c);
  }
}
