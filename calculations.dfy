/**
 * Display helpers shared by the pages: the French label and the badge
 * colour of a proposal status, and the vehicle types offered by the
 * calculator form.
 */
module Calculations {
  import opened Schema

  /** The statuses a proposal goes through, in the order the labels list them. */
  const KnownStatuses: seq<string> := ["accepted", "under_review", "sent", "draft", "rejected"]

  const UnknownLabel := "Inconnu"
  const DraftColor := "bg-gray-100 text-gray-800"

  /** `getStatusLabel`: a known status gets its own label, anything else "Inconnu". */
  function StatusLabel(status: string): (r: string)
    ensures status !in KnownStatuses ==> r == UnknownLabel
    ensures status in KnownStatuses ==> r != UnknownLabel
  {
    match status
    case "accepted" => "Acceptée"
    case "under_review" => "En révision"
    case "sent" => "Envoyée"
    case "draft" => "Brouillon"
    case "rejected" => "Rejetée"
    case _ => UnknownLabel
  }

  /** The five known statuses have five different labels. */
  lemma StatusLabelsDistinct(s: string, t: string)
    requires s in KnownStatuses && t in KnownStatuses && s != t
    ensures StatusLabel(s) != StatusLabel(t)
  {
  }

  /** `getStatusColor`: defined for every string; an unknown status looks like a draft. */
  function StatusColor(status: string): (r: string)
    ensures status !in KnownStatuses ==> r == DraftColor
    ensures status == "draft" ==> r == DraftColor
  {
    match status
    case "accepted" => "bg-green-100 text-green-800"
    case "under_review" => "bg-yellow-100 text-yellow-800"
    case "sent" => "bg-blue-100 text-blue-800"
    case "draft" => DraftColor
    case "rejected" => "bg-red-100 text-red-800"
    case _ => DraftColor
  }

  /** The five known statuses have five different colours. */
  lemma StatusColorsDistinct(s: string, t: string)
    requires s in KnownStatuses && t in KnownStatuses && s != t
    ensures StatusColor(s) != StatusColor(t)
  {
  }

  datatype VehicleTypeOption = VehicleTypeOption(value: string, text: string)

  const VehicleTypeOptions: seq<VehicleTypeOption> := [
    VehicleTypeOption("heavy_truck", "Poids lourds (>12T)"),
    VehicleTypeOption("medium_truck", "Camions moyens (3.5-12T)"),
    VehicleTypeOption("light_utility", "Utilitaires légers (<3.5T)"),
    VehicleTypeOption("bus", "Autobus/Autocars")]

  /** The form offers exactly the vehicle types the ROI schema accepts, in the same order. */
  lemma VehicleTypeOptionsMatchSchema()
    ensures |VehicleTypeOptions| == |VehicleTypeNames|
    ensures forall i :: 0 <= i < |VehicleTypeOptions| ==> VehicleTypeOptions[i].value == VehicleTypeNames[i]
    ensures forall o :: o in VehicleTypeOptions ==> ParseVehicleType(o.value).Some?
  {
  }
}
