/**
 * The client-side behaviour of the LOOC-C estimate table (js/estimate_table.js).
 * Each table row is a Row object holding what the handlers change in place: the
 * two carbon inputs (value and disabled flag), the ACCU cell text, the optional
 * LRF co-benefit cell and the class list of the row's update link. Derive is the
 * pure view model that updateSelection writes into a row. The DOM, the AJAX
 * transport and locale formatting are left abstract.
 */
module EstimateTable {
  import opened Wrappers

  /** A JavaScript value as it can appear in the row's JSON snapshot. */
  datatype JsValue = Undefined | Null | Bool(b: bool) | Num(n: real) | Str(s: string)

  /** JavaScript's conversion to boolean. */
  predicate Truthy(v: JsValue) {
    match v
    case Undefined => false
    case Null => false
    case Bool(b) => b
    case Num(n) => n != 0.0
    case Str(s) => s != ""
  }

  /** One entry of `data-method-estimates`: a method id, its annual ACCUs, and its other properties. */
  datatype MethodEstimate = MethodEstimate(methodId: string, annual: real, properties: map<string, JsValue>)

  /** `estimate[key]` for a property other than `method_id` and `annual`. */
  function Property(e: MethodEstimate, key: string): JsValue {
    if key in e.properties then e.properties[key] else Undefined
  }

  /**
   * The browser's number formatting: `toLocaleString` of an integer, and the
   * conversion of a number inside a template literal.
   */
  datatype Formatter = Formatter(localeInteger: int -> string, numberText: real -> string)

  /** The text a value becomes inside a template literal. */
  function Text(v: JsValue, fmt: Formatter): string {
    match v
    case Undefined => "undefined"
    case Null => "null"
    case Bool(b) => if b then "true" else "false"
    case Num(n) => fmt.numberText(n)
    case Str(s) => s
  }

  /** `parseInt` of a number: its integer part, rounding toward zero. */
  function IntegerPart(x: real): (n: int)
    ensures 0.0 <= x ==> 0 <= n && n as real <= x < n as real + 1.0
    ensures x < 0.0 ==> n <= 0 && n as real - 1.0 < x <= n as real
  {
    if x >= 0.0 then x.Floor else -((-x).Floor)
  }

  /** `estimates.find(method => method.method_id === value)`, as the index of the entry found. */
  function FindEstimate(snapshot: seq<MethodEstimate>, value: string): (found: Option<nat>)
    ensures found.Some? ==>
      && found.value < |snapshot|
      && snapshot[found.value].methodId == value
      && forall j :: 0 <= j < found.value ==> snapshot[j].methodId != value
    ensures found.None? <==> forall j :: 0 <= j < |snapshot| ==> snapshot[j].methodId != value
  {
    if snapshot == [] then None
    else if snapshot[0].methodId == value then Some(0)
    else
      match FindEstimate(snapshot[1..], value)
      case Some(i) => Some(i + 1)
      case None => None
  }

  /** A co-benefit of the Land Restoration Fund: its snapshot key and its label. */
  datatype CoBenefit = CoBenefit(key: string, caption: string)

  /** `lrfCobenefits`, in its fixed order. */
  const LrfCoBenefits: seq<CoBenefit> := [
    CoBenefit("great_barrier_reef", "Great barrier reef"),
    CoBenefit("coastal_ecosystems", "Coastal ecosystems"),
    CoBenefit("wetlands", "Wetlands"),
    CoBenefit("threatened_ecosystems", "Threatened ecosystems"),
    CoBenefit("threatened_wildlife", "Threatened wildlife"),
    CoBenefit("native_vegetation", "Native vegetation"),
    CoBenefit("summary", "Summary")
  ]

  datatype SelectOption = SelectOption(value: string, text: string)

  /** The content of the LRF cell: as the server rendered it, `N/A`, or a co-benefit select. */
  datatype LrfCell = ServerRendered | NotApplicable | CoBenefitSelect(options: seq<SelectOption>)

  /** The option for one co-benefit: its key as value, "Label: score" as text. */
  function CoBenefitOption(e: MethodEstimate, c: CoBenefit, fmt: Formatter): SelectOption {
    SelectOption(c.key, c.caption + ": " + Text(Property(e, c.key), fmt))
  }

  /** The options of the co-benefit select: seven, in the fixed key order, the last one for the summary. */
  function CoBenefitOptions(e: MethodEstimate, fmt: Formatter): (options: seq<SelectOption>)
    ensures |options| == 7
    ensures options[0].value == "great_barrier_reef" && options[6].value == "summary"
    ensures options[6].text == "Summary: " + Text(Property(e, "summary"), fmt)
    ensures forall i :: 0 <= i < 7 ==> options[i].value == LrfCoBenefits[i].key
    ensures forall i, j :: 0 <= i < j < 7 ==> options[i].value != options[j].value
  {
    seq(|LrfCoBenefits|, i requires 0 <= i < |LrfCoBenefits| => CoBenefitOption(e, LrfCoBenefits[i], fmt))
  }

  /** The `for ... of Object.entries(lrfCobenefits)` loop that appends one option per co-benefit. */
  method BuildCoBenefitSelect(e: MethodEstimate, fmt: Formatter) returns (options: seq<SelectOption>)
    ensures options == CoBenefitOptions(e, fmt)
  {
    options := [];
    for i := 0 to |LrfCoBenefits|
      invariant |options| == i
      invariant forall k :: 0 <= k < i ==> options[k] == CoBenefitOption(e, LrfCoBenefits[k], fmt)
    {
      var c := LrfCoBenefits[i];
      options := options + [SelectOption(c.key, c.caption + ": " + Text(Property(e, c.key), fmt))];
    }
  }

  const SocMeasure := "soc-measure"

  /** What a row displays for a selected method. */
  datatype ViewModel = ViewModel(
    currentCarbonDisabled: bool,
    targetCarbonDisabled: bool,
    accuText: string,
    lrf: Option<LrfCell>)

  /**
   * The displayed fields for the method `value`, derived from the snapshot
   * entry that `find` picks. The entry must exist: the source reads its
   * `annual` unconditionally.
   */
  function Derive(snapshot: seq<MethodEstimate>, value: string, hasLrfColumn: bool, fmt: Formatter): (v: ViewModel)
    requires FindEstimate(snapshot, value).Some?
    ensures v.currentCarbonDisabled == v.targetCarbonDisabled
    ensures v.currentCarbonDisabled <==> value != SocMeasure
    ensures exists i :: (0 <= i < |snapshot| && snapshot[i].methodId == value
      && (forall j :: 0 <= j < i ==> snapshot[j].methodId != value)
      && v.accuText == fmt.localeInteger(IntegerPart(snapshot[i].annual))
      && (hasLrfColumn && Truthy(Property(snapshot[i], "summary")) ==>
            v.lrf == Some(CoBenefitSelect(CoBenefitOptions(snapshot[i], fmt))))
      && (hasLrfColumn && !Truthy(Property(snapshot[i], "summary")) ==> v.lrf == Some(NotApplicable)))
    ensures v.lrf.Some? <==> hasLrfColumn
  {
    var estimate := snapshot[FindEstimate(snapshot, value).value];
    var disabled := value != SocMeasure;
    var lrf :=
      if !hasLrfColumn then None
      else if Truthy(Property(estimate, "summary")) then Some(CoBenefitSelect(CoBenefitOptions(estimate, fmt)))
      else Some(NotApplicable);
    ViewModel(disabled, disabled, fmt.localeInteger(IntegerPart(estimate.annual)), lrf)
  }

  /** Entries after the first match do not matter: the displayed fields are those of the first entry for `value`. */
  lemma {:induction false} DeriveUsesFirstMatch(
    snapshot: seq<MethodEstimate>, more: seq<MethodEstimate>, value: string, hasLrfColumn: bool, fmt: Formatter)
    requires FindEstimate(snapshot, value).Some?
    ensures FindEstimate(snapshot + more, value) == FindEstimate(snapshot, value)
    ensures Derive(snapshot + more, value, hasLrfColumn, fmt) == Derive(snapshot, value, hasLrfColumn, fmt)
  {
    FindPrefix(snapshot, more, value);
  }

  lemma {:induction false} FindPrefix(snapshot: seq<MethodEstimate>, more: seq<MethodEstimate>, value: string)
    requires FindEstimate(snapshot, value).Some?
    ensures FindEstimate(snapshot + more, value) == FindEstimate(snapshot, value)
  {
    if snapshot[0].methodId != value {
      assert (snapshot + more)[1..] == snapshot[1..] + more;
      FindPrefix(snapshot[1..], more, value);
    }
  }

  /**
   * The snapshot `[{a, 120, summary: true, wetlands: 5}, {b, 80, summary: false}]`:
   * selecting "a" shows 120 ACCUs and a co-benefit select whose first option is
   * the Great Barrier Reef one (no score, so "undefined") and whose third reads
   * "Wetlands: 5"; selecting "b" shows 80 and `N/A`. Neither enables the carbon inputs.
   */
  lemma ExampleSnapshot(fmt: Formatter)
    ensures var snapshot := [
        MethodEstimate("a", 120.0, map["summary" := Bool(true), "wetlands" := Num(5.0)]),
        MethodEstimate("b", 80.0, map["summary" := Bool(false)])];
      var a, b := Derive(snapshot, "a", true, fmt), Derive(snapshot, "b", true, fmt);
      && a.accuText == fmt.localeInteger(120)
      && a.currentCarbonDisabled && a.targetCarbonDisabled
      && a.lrf.Some? && a.lrf.value.CoBenefitSelect?
      && a.lrf.value.options[0] == SelectOption("great_barrier_reef", "Great barrier reef: undefined")
      && a.lrf.value.options[2] == SelectOption("wetlands", "Wetlands: " + fmt.numberText(5.0))
      && b.accuText == fmt.localeInteger(80)
      && b.lrf == Some(NotApplicable)
  {
  }

  /** An AJAX request as the handlers prepare it: its URL and its form data. */
  datatype Request = Request(url: string, data: map<string, string>)

  const MethodIdKey := "method_id"
  const CarbonAverageKey := "carbon_average"
  const CarbonTargetKey := "carbon_target"
  const ActiveClass := "active"

  datatype CarbonInput = CurrentCarbon | TargetCarbon

  /** One row of the estimate table and the state its handlers change. */
  class Row {
    const estimateId: string
    const snapshot: seq<MethodEstimate>
    const updateHref: string
    var selected: string
    var currentCarbon: string
    var targetCarbon: string
    var currentCarbonDisabled: bool
    var targetCarbonDisabled: bool
    var accuText: string
    var lrf: Option<LrfCell>
    var updateLinkClasses: set<string>
    /** Whether `once('estimate_table', ...)` has already processed this row. */
    var attached: bool

    /** A row as the server renders it, before the behaviour is attached. */
    constructor (estimateId: string, snapshot: seq<MethodEstimate>, updateHref: string, selected: string,
                 currentCarbon: string, targetCarbon: string, carbonDisabled: bool, accuText: string,
                 hasLrfColumn: bool, updateLinkClasses: set<string>)
      ensures this.estimateId == estimateId && this.snapshot == snapshot && this.updateHref == updateHref
      ensures this.selected == selected && this.currentCarbon == currentCarbon && this.targetCarbon == targetCarbon
      ensures currentCarbonDisabled == carbonDisabled && targetCarbonDisabled == carbonDisabled
      ensures this.accuText == accuText
      ensures lrf == (if hasLrfColumn then Some(ServerRendered) else None)
      ensures this.updateLinkClasses == updateLinkClasses && !attached
    {
      this.estimateId, this.snapshot, this.updateHref := estimateId, snapshot, updateHref;
      this.selected, this.currentCarbon, this.targetCarbon := selected, currentCarbon, targetCarbon;
      currentCarbonDisabled, targetCarbonDisabled := carbonDisabled, carbonDisabled;
      this.accuText := accuText;
      lrf := if hasLrfColumn then Some(ServerRendered) else None;
      this.updateLinkClasses := updateLinkClasses;
      attached := false;
    }

    /** What the row currently displays. */
    function View(): ViewModel
      reads this
    {
      ViewModel(currentCarbonDisabled, targetCarbonDisabled, accuText, lrf)
    }

    /**
     * `updateSelection`: rewrites the disabled flags, the ACCU text and, only
     * when the row has an LRF column, that cell; nothing else in the row changes.
     */
    method UpdateSelection(value: string, fmt: Formatter)
      requires FindEstimate(snapshot, value).Some?
      modifies this
      ensures View() == Derive(snapshot, value, old(lrf).Some?, fmt)
      ensures selected == old(selected) && attached == old(attached)
      ensures currentCarbon == old(currentCarbon) && targetCarbon == old(targetCarbon)
      ensures updateLinkClasses == old(updateLinkClasses)
    {
      var estimate := snapshot[FindEstimate(snapshot, value).value];

      if value != SocMeasure {
        currentCarbonDisabled := true;
        targetCarbonDisabled := true;
      } else {
        currentCarbonDisabled := false;
        targetCarbonDisabled := false;
      }

      accuText := fmt.localeInteger(IntegerPart(estimate.annual));

      if lrf.Some? {
        if Truthy(Property(estimate, "summary")) {
          var options := BuildCoBenefitSelect(estimate, fmt);
          lrf := Some(CoBenefitSelect(options));
        } else {
          lrf := Some(NotApplicable);
        }
      }
    }

    /**
     * The user selects the method `value`. Only on a row that attach has
     * processed is there a change listener, which runs updateSelection on it;
     * otherwise only the select's value changes.
     */
    method ChangeMethod(value: string, fmt: Formatter)
      requires attached ==> FindEstimate(snapshot, value).Some?
      modifies this
      ensures selected == value
      ensures attached == old(attached) && updateLinkClasses == old(updateLinkClasses)
      ensures attached ==> View() == Derive(snapshot, value, old(lrf).Some?, fmt)
      ensures !attached ==> View() == old(View())
      ensures currentCarbon == old(currentCarbon) && targetCarbon == old(targetCarbon)
    {
      selected := value;
      if attached {
        UpdateSelection(value, fmt);
      }
    }

    /**
     * The row's part of `attach`, guarded by `once`: the first time, the row is
     * updated for its current selection; later attaches leave it unchanged.
     */
    method Attach(fmt: Formatter)
      requires !attached ==> FindEstimate(snapshot, selected).Some?
      modifies this
      ensures attached
      ensures old(attached) ==> unchanged(this)
      ensures !old(attached) ==>
        && View() == Derive(snapshot, old(selected), old(lrf).Some?, fmt)
        && selected == old(selected)
        && currentCarbon == old(currentCarbon) && targetCarbon == old(targetCarbon)
        && updateLinkClasses == old(updateLinkClasses)
    {
      if !attached {
        UpdateSelection(selected, fmt);
        attached := true;
      }
    }

    /**
     * The user changes one carbon input to `value`. Only on a row that attach
     * has processed is there a change listener, which adds `active` to the
     * row's update link; adding it again changes nothing.
     */
    method ChangeCarbonInput(input: CarbonInput, value: string)
      modifies this
      ensures attached ==> updateLinkClasses == old(updateLinkClasses) + {ActiveClass}
      ensures !attached ==> updateLinkClasses == old(updateLinkClasses)
      ensures ActiveClass in old(updateLinkClasses) ==> updateLinkClasses == old(updateLinkClasses)
      ensures currentCarbon == (if input == CurrentCarbon then value else old(currentCarbon))
      ensures targetCarbon == (if input == TargetCarbon then value else old(targetCarbon))
      ensures View() == old(View()) && selected == old(selected) && attached == old(attached)
    {
      if input == CurrentCarbon {
        currentCarbon := value;
      } else {
        targetCarbon := value;
      }
      if attached {
        updateLinkClasses := updateLinkClasses + {ActiveClass};
      }
    }

    /**
     * The request of the method select, which exists only once attach has
     * built its ajax object: `looc-c/estimates/{id}/update?token={token}`
     * under the site's base path, with the select's current value added to the
     * data that the default `beforeSerialize` prepared.
     */
    method MethodUpdateRequest(basePath: string, token: string, base: map<string, string>)
      returns (request: Option<Request>)
      ensures request.Some? <==> attached
      ensures request.Some? ==>
        && request.value.url == basePath + "looc-c/estimates/" + estimateId + "/update?token=" + token
        && request.value.data.Keys == base.Keys + {MethodIdKey}
        && request.value.data[MethodIdKey] == selected
        && forall k :: k in base && k != MethodIdKey ==> request.value.data[k] == base[k]
    {
      if !attached {
        return None;
      }
      var url := basePath + "looc-c/estimates/" + estimateId + "/update?token=" + token;
      var data := base;
      data := data[MethodIdKey := selected];
      request := Some(Request(url, data));
    }

    /**
     * The request of the update link, which exists only once attach has built
     * its ajax object: the href followed by `?token=` and the token, with the
     * values of this row's two carbon inputs added to the data.
     */
    method UpdateLinkRequest(token: string, base: map<string, string>) returns (request: Option<Request>)
      ensures request.Some? <==> attached
      ensures request.Some? ==>
        && request.value.url == updateHref + "?token=" + token
        && request.value.data.Keys == base.Keys + {CarbonAverageKey, CarbonTargetKey}
        && request.value.data[CarbonAverageKey] == currentCarbon
        && request.value.data[CarbonTargetKey] == targetCarbon
        && forall k :: k in base && k != CarbonAverageKey && k != CarbonTargetKey ==> request.value.data[k] == base[k]
    {
      if !attached {
        return None;
      }
      var url := updateHref + "?token=" + token;
      var data := base;
      data := data[CarbonAverageKey := currentCarbon];
      data := data[CarbonTargetKey := targetCarbon];
      request := Some(Request(url, data));
    }
  }

  const PlaceholderToken := "blah"

  /** Whether `this.csrfToken` is truthy. */
  predicate TokenSet(token: Option<string>) {
    token.Some? && token.value != ""
  }

  /** `Drupal.behaviors.farm_loocc_estimate_table`. */
  class Behavior {
    var csrfToken: Option<string>

    constructor ()
      ensures csrfToken == None
    {
      csrfToken := None;
    }

    /**
     * `attach`: the first attach sets the token to the placeholder, later ones
     * keep it; then every row not yet processed is updated for its selection.
     */
    method Attach(rows: seq<Row>, fmt: Formatter)
      requires forall r :: r in rows && !r.attached ==> FindEstimate(r.snapshot, r.selected).Some?
      modifies this, set r | r in rows
      ensures TokenSet(csrfToken)
      ensures TokenSet(old(csrfToken)) ==> csrfToken == old(csrfToken)
      ensures !TokenSet(old(csrfToken)) ==> csrfToken == Some(PlaceholderToken)
      ensures forall r :: r in rows ==> r.attached
      ensures forall r :: r in rows && old(r.attached) ==> unchanged(r)
      ensures forall r :: r in rows && !old(r.attached) ==>
        && r.View() == Derive(r.snapshot, old(r.selected), old(r.lrf).Some?, fmt)
        && r.selected == old(r.selected)
        && r.currentCarbon == old(r.currentCarbon) && r.targetCarbon == old(r.targetCarbon)
        && r.updateLinkClasses == old(r.updateLinkClasses)
    {
      if !TokenSet(csrfToken) {
        csrfToken := Some(PlaceholderToken);
      }

      for i := 0 to |rows|
        invariant csrfToken == (if TokenSet(old(csrfToken)) then old(csrfToken) else Some(PlaceholderToken))
        invariant forall r :: r in rows[..i] ==> r.attached
        invariant forall r :: r in rows && old(r.attached) ==> unchanged(r)
        invariant forall r :: r in rows && r !in rows[..i] ==> unchanged(r)
        invariant forall r :: r in rows && !old(r.attached) && r in rows[..i] ==>
          && r.View() == Derive(r.snapshot, old(r.selected), old(r.lrf).Some?, fmt)
          && r.selected == old(r.selected)
          && r.currentCarbon == old(r.currentCarbon) && r.targetCarbon == old(r.targetCarbon)
          && r.updateLinkClasses == old(r.updateLinkClasses)
      {
        var row := rows[i];
        row.Attach(fmt);
        assert rows[..i + 1] == rows[..i] + [row];
      }
      assert rows[..|rows|] == rows;
    }
  }
}
