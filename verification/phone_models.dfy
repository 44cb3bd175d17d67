/** The device list and the urgency table the form and the summary page show. */
module PhoneModels {
  import opened Base
  import opened Types

  /** An entry of the device selector: its option value and its display label. */
  datatype PhoneModel = PhoneModel(value: string, displayLabel: string)

  /** The selector's value while no device has been chosen. */
  const Unselected: string := ""

  /** The catch-all entry for devices the list does not name. */
  const OtherModel: string := "other"

  const PhoneModels: seq<PhoneModel> := [
    PhoneModel("iphone-15-pro-max", "iPhone 15 Pro Max"),
    PhoneModel("iphone-15-pro", "iPhone 15 Pro"),
    PhoneModel("iphone-15", "iPhone 15"),
    PhoneModel("iphone-14-pro-max", "iPhone 14 Pro Max"),
    PhoneModel("iphone-14-pro", "iPhone 14 Pro"),
    PhoneModel("iphone-14", "iPhone 14"),
    PhoneModel("iphone-13", "iPhone 13"),
    PhoneModel("iphone-12", "iPhone 12"),
    PhoneModel("iphone-11", "iPhone 11"),
    PhoneModel("samsung-galaxy-s24-ultra", "Samsung Galaxy S24 Ultra"),
    PhoneModel("samsung-galaxy-s24", "Samsung Galaxy S24"),
    PhoneModel("samsung-galaxy-s23", "Samsung Galaxy S23"),
    PhoneModel("samsung-galaxy-a54", "Samsung Galaxy A54"),
    PhoneModel("google-pixel-8-pro", "Google Pixel 8 Pro"),
    PhoneModel("google-pixel-8", "Google Pixel 8"),
    PhoneModel("google-pixel-7", "Google Pixel 7"),
    PhoneModel("oneplus-12", "OnePlus 12"),
    PhoneModel("oneplus-11", "OnePlus 11"),
    PhoneModel("xiaomi-14", "Xiaomi 14"),
    PhoneModel("huawei-p60", "Huawei P60"),
    PhoneModel(OtherModel, "Other (please specify in description)")
  ]

  const UrgencyLevels: seq<UrgencyLevel> := [
    UrgencyLevel(Low, "Low Priority", "Device works, minor issues", "5-7 business days",
                 "text-green-600", "bg-green-50 border-green-200"),
    UrgencyLevel(Medium, "Medium Priority", "Device partially functional", "2-3 business days",
                 "text-yellow-600", "bg-yellow-50 border-yellow-200"),
    UrgencyLevel(High, "High Priority", "Device not working/urgent", "24-48 hours",
                 "text-red-600", "bg-red-50 border-red-200")
  ]

  /** The device list can key a rendered list and never offers the unselected value. */
  lemma PhoneModelsWellFormed()
    ensures forall i, j :: 0 <= i < j < |PhoneModels| ==> PhoneModels[i].value != PhoneModels[j].value
    ensures forall i :: 0 <= i < |PhoneModels| ==> PhoneModels[i].value != Unselected
    ensures forall i :: 0 <= i < |PhoneModels| ==> PhoneModels[i].displayLabel != ""
    ensures PhoneModels[|PhoneModels| - 1].value == OtherModel
  {
  }

  /** Three tiers, ordered low, medium, high, with their promised turnarounds. */
  lemma UrgencyLevelsTable()
    ensures |UrgencyLevels| == 3
    ensures UrgencyLevels[0].value == Low && UrgencyLevels[1].value == Medium && UrgencyLevels[2].value == High
    ensures UrgencyLevels[0].turnaround == "5-7 business days"
    ensures UrgencyLevels[1].turnaround == "2-3 business days"
    ensures UrgencyLevels[2].turnaround == "24-48 hours"
  {
  }

  /** The position of a tier in the urgency table. */
  function TierIndex(u: Urgency): (i: nat)
    ensures i < |UrgencyLevels| && UrgencyLevels[i].value == u
  {
    match u
    case Low => 0
    case Medium => 1
    case High => 2
  }

  /** `PHONE_MODELS.find(model => model.value === value)`. */
  function FindPhoneModel(value: string): (r: Option<PhoneModel>)
    ensures forall k :: 0 <= k < |PhoneModels| && PhoneModels[k].value == value ==> r == Some(PhoneModels[k])
    ensures r.None? <==> forall k :: 0 <= k < |PhoneModels| ==> PhoneModels[k].value != value
  {
    PhoneModelsWellFormed();
    match FindFirst(PhoneModels, (m: PhoneModel) => m.value == value)
    case Some(i) => Some(PhoneModels[i])
    case None => None
  }

  /** A found model always has a label to show. */
  lemma LabelsNonEmpty(value: string)
    ensures FindPhoneModel(value).Some? ==> FindPhoneModel(value).value.displayLabel != ""
  {
    PhoneModelsWellFormed();
    if FindPhoneModel(value).Some? {
      var i := FindFirst(PhoneModels, (m: PhoneModel) => m.value == value).value;
      assert FindPhoneModel(value).value == PhoneModels[i];
    }
  }

  /** `URGENCY_LEVELS.find(level => level.value === u)`: always the tier's own row. */
  function FindUrgencyLevel(u: Urgency): (r: Option<UrgencyLevel>)
    ensures r == Some(UrgencyLevels[TierIndex(u)])
  {
    var found := FindFirst(UrgencyLevels, (l: UrgencyLevel) => l.value == u);
    assert found.Some? by {
      assert UrgencyLevels[TierIndex(u)].value == u;
    }
    Some(UrgencyLevels[found.value])
  }
}
