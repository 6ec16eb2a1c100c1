/**
 * The helper selector: the fixed list of options, the lookup of the selected
 * option, and the open/closed state of its dropdown. The selector does not
 * own the selected value: it reports a new value to its parent through
 * `onChange`, modelled as the value a method returns.
 */
module ProductTypeSelector {
  import opened Wrappers
  import opened Profiles

  /** An option: `caption` is the component's `label` field (a reserved word here). */
  datatype ProductTypeOption = ProductTypeOption(id: string, caption: string, icon: Option<string>)

  /** `DEFAULT_OPTIONS`, in display order. */
  const DefaultOptions: seq<ProductTypeOption> := [
    ProductTypeOption("portfolio", "Portfolio website", Some("\U{1F3A8}")),
    ProductTypeOption("ecommerce", "E-commerce store", Some("\U{1F6D2}")),
    ProductTypeOption("startup", "Startup landing page", Some("\U{1F680}")),
    ProductTypeOption("improve", "Improve my idea", Some("\U{2728}")),
    ProductTypeOption("clearer", "Make this clearer", Some("\U{1F4A1}"))
  ]

  /** `options.find((opt) => opt.id === value)`: the first option whose id is
      `value`, or `None` when no id matches. */
  function FindOption(options: seq<ProductTypeOption>, value: string): (r: Option<ProductTypeOption>)
    ensures r.None? <==> forall o :: o in options ==> o.id != value
    ensures r.Some? ==>
      exists k :: 0 <= k < |options| && options[k] == r.value && r.value.id == value
        && forall j :: 0 <= j < k ==> options[j].id != value
  {
    if options == [] then None
    else if options[0].id == value then Some(options[0])
    else FindOption(options[1..], value)
  }

  /** No two options share an id. */
  ghost predicate DistinctIds(options: seq<ProductTypeOption>) {
    forall i, j :: 0 <= i < j < |options| ==> options[i].id != options[j].id
  }

  /** The default option ids are pairwise distinct. */
  lemma DefaultOptionIdsDistinct()
    ensures DistinctIds(DefaultOptions)
  {
  }

  /** When ids are distinct, the option found is the only one with that id. */
  lemma FindOptionUnique(options: seq<ProductTypeOption>, value: string)
    requires DistinctIds(options)
    ensures FindOption(options, value).Some? ==>
      forall o :: o in options && o.id == value ==> o == FindOption(options, value).value
  {
    var r := FindOption(options, value);
    if r.Some? {
      var k :| 0 <= k < |options| && options[k] == r.value && r.value.id == value;
      forall o | o in options && o.id == value ensures o == r.value {
        var i :| 0 <= i < |options| && options[i] == o;
        assert i == k;
      }
    }
  }

  /** Every option id is a key of the system-prompt table other than
      `default`. */
  lemma DefaultOptionsAreProfiles()
    ensures forall o :: o in DefaultOptions ==> o.id in SystemPrompts && o.id != DefaultKey
  {
  }

  /** Every key of the system-prompt table other than `default` is offered
      as an option. */
  lemma ProfilesAreDefaultOptions()
    ensures forall k :: k in SystemPrompts && k != DefaultKey ==> exists o :: o in DefaultOptions && o.id == k
  {
    forall k | k in SystemPrompts && k != DefaultKey ensures exists o :: o in DefaultOptions && o.id == k {
      var i := if k == "portfolio" then 0 else if k == "ecommerce" then 1 else if k == "startup" then 2
        else if k == "improve" then 3 else 4;
      assert DefaultOptions[i] in DefaultOptions && DefaultOptions[i].id == k;
    }
  }

  /** Every selectable value resolves to its own profile, never to the
      default text. */
  lemma DefaultOptionsResolveToOwnProfile()
    ensures forall o :: o in DefaultOptions ==>
      ResolveSystemPrompt(o.id) == SystemPrompts[o.id] && ResolveSystemPrompt(o.id) != DefaultPrompt
  {
    SystemPromptsDistinct();
    DefaultOptionsAreProfiles();
  }

  /** Clearing the selection leaves no option selected and makes the server
      fall back to the default profile. */
  lemma ClearedSelectionUsesDefault()
    ensures FindOption(DefaultOptions, "") == None
    ensures ResolveSystemPrompt("") == DefaultPrompt
  {
  }

  class ProductTypeSelector {
    var isOpen: bool

    constructor ()
      ensures !isOpen
    {
      isOpen := false;
    }

    /** `handleSelect(optionId)`: reports the option's id and closes the
        dropdown; the reported value then selects that very option. */
    method HandleSelect(optionId: string) returns (emitted: string)
      modifies this
      ensures emitted == optionId && !isOpen
      ensures forall o :: o in DefaultOptions && o.id == optionId ==> FindOption(DefaultOptions, emitted) == Some(o)
    {
      DefaultOptionIdsDistinct();
      FindOptionUnique(DefaultOptions, optionId);
      emitted := optionId;
      isOpen := false;
    }

    /** The trigger's click: toggles the dropdown unless disabled. */
    method ClickTrigger(disabled: bool)
      modifies this
      ensures isOpen == if disabled then old(isOpen) else !old(isOpen)
    {
      if !disabled {
        isOpen := !isOpen;
      }
    }

    /** `handleClear`: reports the empty value, which selects no option and
        makes the server use the default profile; the dropdown is untouched. */
    method HandleClear() returns (emitted: string)
      ensures FindOption(DefaultOptions, emitted) == None
      ensures ResolveSystemPrompt(emitted) == DefaultPrompt
      ensures emitted == ""
    {
      ClearedSelectionUsesDefault();
      emitted := "";
    }

    /** The document's keydown listener: Escape closes the dropdown whatever
        its state (so a second Escape changes nothing); other keys are ignored. */
    method KeyDown(key: string)
      modifies this
      ensures key == "Escape" ==> !isOpen
      ensures key != "Escape" ==> isOpen == old(isOpen)
    {
      if key == "Escape" {
        isOpen := false;
      }
    }
  }
}
