/** The Vehicle model: its five label accessors, `getConstantNames` and the
  * foreign keys of its relations. */
module VehicleModel {
  import opened Values
  import opened ConstantsHelper
  import Query

  /** `getFuelTypeNameAttribute`. */
  function FuelTypeName(vehicle: Row, constants: seq<Row>): Value
  {
    GetConstantName(constants, Get(vehicle, "FUEL_TYPE_OID"), "gas_type")
  }

  /** `getStatusNameAttribute`. */
  function StatusName(vehicle: Row, constants: seq<Row>): Value
  {
    GetConstantName(constants, Get(vehicle, "STATUS_OID"), "vehcile_status")
  }

  /** `getTypeNameAttribute`. */
  function TypeName(vehicle: Row, constants: seq<Row>): Value
  {
    GetConstantName(constants, Get(vehicle, "TYPE_OID"), "Vehcile_type")
  }

  /** `getUsageTypeNameAttribute`. */
  function UsageTypeName(vehicle: Row, constants: seq<Row>): Value
  {
    GetConstantName(constants, Get(vehicle, "USAGE_TYPE_OID"), "veh_type")
  }

  /** `getVendorNameAttribute`. */
  function VendorName(vehicle: Row, constants: seq<Row>): Value
  {
    GetConstantName(constants, Get(vehicle, "VENDOR_OID"), "Vendor")
  }

  /** Each accessor gives the label `transformModelData` attaches for the same
    * id column; when that column is unset the accessor is null and no label
    * is attached (unless the record already had that key). */
  lemma AccessorsAgreeWithLabels(vehicle: Row, constants: seq<Row>)
    ensures var e := Enriched(vehicle, constants);
      (IsSet(vehicle, "FUEL_TYPE_OID") ==> e["fuel_type_name"] == FuelTypeName(vehicle, constants)) &&
      (IsSet(vehicle, "STATUS_OID") ==> e["status_name"] == StatusName(vehicle, constants)) &&
      (IsSet(vehicle, "TYPE_OID") ==> e["type_name"] == TypeName(vehicle, constants)) &&
      (IsSet(vehicle, "USAGE_TYPE_OID") ==> e["usage_type_name"] == UsageTypeName(vehicle, constants)) &&
      (IsSet(vehicle, "VENDOR_OID") ==> e["vendor_name"] == VendorName(vehicle, constants))
    ensures !IsSet(vehicle, "FUEL_TYPE_OID") ==> FuelTypeName(vehicle, constants) == VNull
    ensures !IsSet(vehicle, "STATUS_OID") ==> StatusName(vehicle, constants) == VNull
    ensures !IsSet(vehicle, "TYPE_OID") ==> TypeName(vehicle, constants) == VNull
    ensures !IsSet(vehicle, "USAGE_TYPE_OID") ==> UsageTypeName(vehicle, constants) == VNull
    ensures !IsSet(vehicle, "VENDOR_OID") ==> VendorName(vehicle, constants) == VNull
  {
    LabelTable("fuel_type_name");
    LabelTable("status_name");
    LabelTable("type_name");
    LabelTable("usage_type_name");
    LabelTable("vendor_name");
  }

  /** `getConstantNames()`: the record's array form with the labels attached. */
  method GetConstantNames(vehicle: Row, constants: seq<Row>) returns (names: Row)
    ensures names == Enriched(vehicle, constants)
    ensures forall k :: k in vehicle && k !in Targets ==> k in names && names[k] == vehicle[k]
  {
    names := TransformModelData(vehicle, constants);
    forall k | k in vehicle && k !in Targets ensures k in names && names[k] == vehicle[k] {
      EnrichedKeepsInput(vehicle, constants, k);
    }
  }

  /** `fuelLogs()`: the logs whose `VEH_OID` is this vehicle's `OID`. */
  function FuelLogs(vehicle: Row, logs: seq<Row>): (r: seq<Row>)
    ensures forall x :: x in r <==> x in logs && IsSet(vehicle, "OID") && SqlEquals(Get(x, "VEH_OID"), vehicle["OID"])
  {
    Query.HasMany(logs, "VEH_OID", Get(vehicle, "OID"))
  }

  /** `maintenanceRecords()`: the records whose `VEHICLE_OID` is this vehicle's `OID`. */
  function MaintenanceRecords(vehicle: Row, records: seq<Row>): (r: seq<Row>)
    ensures forall x :: x in r <==> x in records && IsSet(vehicle, "OID") && SqlEquals(Get(x, "VEHICLE_OID"), vehicle["OID"])
  {
    Query.HasMany(records, "VEHICLE_OID", Get(vehicle, "OID"))
  }

  /** `gasBills()`: keyed on a `vehicle_id` column. */
  function GasBills(vehicle: Row, bills: seq<Row>): (r: seq<Row>)
    ensures forall x :: x in r <==> x in bills && IsSet(vehicle, "OID") && SqlEquals(Get(x, "vehicle_id"), vehicle["OID"])
  {
    Query.HasMany(bills, "vehicle_id", Get(vehicle, "OID"))
  }

  /** `generators()`: the generators whose `ASSIGNED_TO` is this vehicle's `OID`. */
  function Generators(vehicle: Row, generators: seq<Row>): (r: seq<Row>)
    ensures forall x :: x in r <==> x in generators && IsSet(vehicle, "OID") && SqlEquals(Get(x, "ASSIGNED_TO"), vehicle["OID"])
  {
    Query.HasMany(generators, "ASSIGNED_TO", Get(vehicle, "OID"))
  }

  /** Bills as stored have no `vehicle_id` column, so that relation is always empty. */
  lemma GasBillsEmptyWithoutColumn(vehicle: Row, bills: seq<Row>)
    requires forall i :: 0 <= i < |bills| ==> "vehicle_id" !in bills[i]
    ensures forall x :: x !in GasBills(vehicle, bills)
  {
  }
}
