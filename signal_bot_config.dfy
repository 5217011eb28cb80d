/**
 * The signal-bot strategy form: replacing one field of the configuration, and
 * the "required data fields" checkboxes, which add a field to or remove it
 * from the configuration's list.
 */
module SignalBotForm {
  import opened Lists

  /** The value of one configuration field. */
  datatype FieldValue = Text(text: string) | Number(number: real) | Flag(flag: bool) | FieldList(names: seq<string>)

  /** A configuration: field name to value. */
  type Config = map<string, FieldValue>

  const RequiredDataFieldsKey := "requiredDataFields"

  /** The fields the form offers as checkboxes. */
  const RequiredFieldOptions := ["Asset", "Action", "Price", "Stop-Loss", "Timestamp", "Context ID"]

  /** The configuration has its list of required data fields, as its type demands. */
  predicate WellTyped(config: Config) {
    RequiredDataFieldsKey in config && config[RequiredDataFieldsKey].FieldList?
  }

  /** `{ ...config, [field]: value }`: `field` takes the new value, every other field keeps its own. */
  function HandleChange(config: Config, field: string, value: FieldValue): (r: Config)
    ensures field in r && r[field] == value
    ensures r.Keys == config.Keys + {field}
    ensures forall k :: k in config && k != field ==> r[k] == config[k]
  {
    config[field := value]
  }

  /** Setting a field to the value it has changes nothing. */
  lemma HandleChangeSame(config: Config, field: string)
    requires field in config
    ensures HandleChange(config, field, config[field]) == config
  {
  }

  /** The later of two changes to the same field wins. */
  lemma HandleChangeLastWins(config: Config, field: string, v: FieldValue, w: FieldValue)
    ensures HandleChange(HandleChange(config, field, v), field, w) == HandleChange(config, field, w)
  {
  }

  /** `config.requiredDataFields`. */
  function RequiredFields(config: Config): seq<string>
    requires WellTyped(config)
  {
    config[RequiredDataFieldsKey].names
  }

  /** `config.requiredDataFields.includes(field)`: the checkbox is ticked. */
  predicate IsChecked(config: Config, field: string)
    requires WellTyped(config)
  {
    field in RequiredFields(config)
  }

  /** The new list: the field appended when the box becomes ticked, every occurrence removed otherwise. */
  function NextRequiredFields(fields: seq<string>, field: string, checked: bool): seq<string> {
    if checked then fields + [field] else Without(fields, field)
  }

  /** The checkbox handler; `checked` is the state the box has just been put in. */
  function OnRequiredFieldChange(config: Config, field: string, checked: bool): (r: Config)
    requires WellTyped(config)
    ensures WellTyped(r)
    ensures r.Keys == config.Keys
    ensures forall k :: k in config && k != RequiredDataFieldsKey ==> r[k] == config[k]
  {
    HandleChange(config, RequiredDataFieldsKey, FieldList(NextRequiredFields(RequiredFields(config), field, checked)))
  }

  /** Afterwards the box shows ticked exactly when it was just ticked. */
  lemma CheckedAfterChange(config: Config, field: string, checked: bool)
    requires WellTyped(config)
    ensures IsChecked(OnRequiredFieldChange(config, field, checked), field) <==> checked
  {
    WithoutMembership(RequiredFields(config), field, field);
  }

  /** Ticking appends the field at the end and keeps the list before it. */
  lemma CheckAppends(config: Config, field: string)
    requires WellTyped(config)
    ensures var fields := RequiredFields(OnRequiredFieldChange(config, field, true));
      |fields| == |RequiredFields(config)| + 1 &&
      fields[..|RequiredFields(config)|] == RequiredFields(config) && fields[|RequiredFields(config)|] == field
  {
  }

  /**
   * Unticking removes every occurrence of the field, keeps every other entry
   * as often as before, and keeps their order.
   */
  lemma UncheckRemoves(config: Config, field: string)
    requires WellTyped(config)
    ensures var fields := RequiredFields(OnRequiredFieldChange(config, field, false));
      && field !in fields
      && multiset(fields) == multiset(RequiredFields(config))[field := 0]
      && fields == Without(RequiredFields(config), field)
      && forall x :: x != field ==> (x in fields <==> x in RequiredFields(config))
  {
    WithoutMembership(RequiredFields(config), field, field);
    WithoutMultiset(RequiredFields(config), field);
    forall x | x != field
      ensures x in Without(RequiredFields(config), field) <==> x in RequiredFields(config)
    {
      WithoutMembership(RequiredFields(config), field, x);
    }
  }

  /** Ticking and then unticking a field that was not required restores the configuration. */
  lemma CheckThenUncheck(config: Config, field: string)
    requires WellTyped(config) && !IsChecked(config, field)
    ensures OnRequiredFieldChange(OnRequiredFieldChange(config, field, true), field, false) == config
  {
    var fields := RequiredFields(config);
    WithoutAppend(fields, [field], field);
    assert Without([field], field) == Without([field][1..], field);
    WithoutAbsent(fields, field);
    assert NextRequiredFields(fields + [field], field, false) == fields;
  }

  /** A click flips the box: the field becomes required exactly when it was not. */
  lemma ClickFlips(config: Config, field: string)
    requires WellTyped(config)
    ensures IsChecked(OnRequiredFieldChange(config, field, !IsChecked(config, field)), field) <==> !IsChecked(config, field)
  {
    CheckedAfterChange(config, field, !IsChecked(config, field));
  }

  /** The row of checkboxes: one per offered field, in order, ticked when that field is required. */
  function CheckboxStates(config: Config): seq<bool>
    requires WellTyped(config)
  {
    seq(|RequiredFieldOptions|, i requires 0 <= i < |RequiredFieldOptions| => IsChecked(config, RequiredFieldOptions[i]))
  }

  /** The offered fields are pairwise distinct. */
  lemma RequiredFieldOptionsDistinct()
    ensures forall i, j :: 0 <= i < j < |RequiredFieldOptions| ==> RequiredFieldOptions[i] != RequiredFieldOptions[j]
  {
    var o := RequiredFieldOptions;
    assert o[0][0] == 'A' && o[1][0] == 'A' && o[2][0] == 'P' && o[3][0] == 'S' && o[4][0] == 'T' && o[5][0] == 'C';
    assert o[0][1] != o[1][1];
  }

  /** A click on one box flips that box and leaves every other box of the row as it was. */
  lemma ClickFlipsOnlyItsBox(config: Config, i: nat)
    requires WellTyped(config) && i < |RequiredFieldOptions|
    ensures var field := RequiredFieldOptions[i];
      var after := CheckboxStates(OnRequiredFieldChange(config, field, !IsChecked(config, field)));
      && after[i] == !CheckboxStates(config)[i]
      && forall j :: 0 <= j < |RequiredFieldOptions| && j != i ==> after[j] == CheckboxStates(config)[j]
  {
    var field := RequiredFieldOptions[i];
    var checked := !IsChecked(config, field);
    ClickFlips(config, field);
    RequiredFieldOptionsDistinct();
    forall j | 0 <= j < |RequiredFieldOptions| && j != i
      ensures IsChecked(OnRequiredFieldChange(config, field, checked), RequiredFieldOptions[j]) <==>
              IsChecked(config, RequiredFieldOptions[j])
    {
      assert RequiredFieldOptions[j] != field;
      WithoutMembership(RequiredFields(config), field, RequiredFieldOptions[j]);
    }
  }
}
