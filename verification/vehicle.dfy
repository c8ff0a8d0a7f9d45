/**
 * The driver's vehicle manager (cabBuddy/src/components/profile/Vehicle.jsx):
 * a form that either adds a vehicle or, while `editingId` is set, updates
 * one; the list of vehicles with its load and its removal by id. Each
 * request becomes an outcome passed in.
 */
module Vehicles {
  import opened JsText

  /** A vehicle as the server returns it */
  datatype Vehicle = Vehicle(id: int, vehicleNumber: string, model: string, kind: string, capacity: int)

  /** The body of an add or update request; `capacity` is None when the
      form text does not parse (`parseInt` gives NaN). */
  datatype VehicleData = VehicleData(vehicleNumber: string, model: string, kind: string, capacity: Option<int>)

  /** The request a submit sends */
  datatype SaveRequest = Add(data: VehicleData) | Update(id: int, data: VehicleData)

  /** The outcome of `getDriverVehicles`; `data` is None when the
      response carries no data. */
  datatype LoadResponse = LoadFailed | Loaded(data: Option<seq<Vehicle>>)

  /** The names of the four form inputs */
  const FormKeys: set<string> := {"vehicleNumber", "model", "type", "capacity"}

  /** The empty form */
  const EmptyForm: map<string, string> :=
    map["vehicleNumber" := "", "model" := "", "type" := "", "capacity" := ""]

  /** The list after `loadVehicles`: the data returned, [] when there is
      none, [] when the request fails */
  function LoadedVehicles(response: LoadResponse): (vs: seq<Vehicle>)
    ensures response.Loaded? && response.data.Some? ==> vs == response.data.value
    ensures response.LoadFailed? || response.data.None? ==> vs == []
  {
    if response.Loaded? && response.data.Some? then response.data.value else []
  }

  /** The form as `handleEdit` fills it from a vehicle; the capacity
      field holds the number's decimal text. */
  function EditForm(v: Vehicle): (form: map<string, string>)
    ensures form.Keys == FormKeys
    ensures form["vehicleNumber"] == v.vehicleNumber && form["model"] == v.model
    ensures form["type"] == v.kind && ParseInt(form["capacity"]) == Some(v.capacity)
  {
    var capacity := IntToString(v.capacity);
    ParseIntToString(v.capacity);
    map["vehicleNumber" := v.vehicleNumber, "model" := v.model, "type" := v.kind, "capacity" := capacity]
  }

  /** The request a submit sends: an update of `editingId` when it is
      truthy, an add otherwise, with the capacity parsed from the form */
  function SubmitRequest(form: map<string, string>, editingId: Option<int>): (req: SaveRequest)
    requires FormKeys <= form.Keys
    ensures req.Update? <==> Truthy(editingId)
    ensures req.Update? ==> req.id == editingId.value
    ensures req.data.vehicleNumber == form["vehicleNumber"] && req.data.model == form["model"]
    ensures req.data.kind == form["type"] && req.data.capacity == ParseInt(form["capacity"])
  {
    var data := VehicleData(form["vehicleNumber"], form["model"], form["type"], ParseInt(form["capacity"]));
    if Truthy(editingId) then Update(editingId.value, data) else Add(data)
  }

  /** Editing a vehicle and submitting the form unchanged sends that
      vehicle back, as an update of its id. */
  lemma EditThenSubmit(v: Vehicle)
    requires v.id != 0
    ensures SubmitRequest(EditForm(v), Some(v.id))
         == Update(v.id, VehicleData(v.vehicleNumber, v.model, v.kind, Some(v.capacity)))
  {
  }

  /** A vehicle whose id is 0 is added again rather than updated. */
  lemma EditOfIdZeroAdds(v: Vehicle)
    requires v.id == 0
    ensures SubmitRequest(EditForm(v), Some(v.id)).Add?
  {
  }

  /** `vehicles.filter(v => v.id !== id)` */
  function WithoutId(vs: seq<Vehicle>, id: int): (r: seq<Vehicle>)
    ensures forall i :: 0 <= i < |r| ==> r[i].id != id
    ensures |r| <= |vs|
  {
    if vs == [] then []
    else if vs[0].id != id then [vs[0]] + WithoutId(vs[1..], id)
    else WithoutId(vs[1..], id)
  }

  /** The filter keeps exactly the vehicles with another id. */
  lemma {:induction false} WithoutIdMembers(vs: seq<Vehicle>, id: int, v: Vehicle)
    ensures v in WithoutId(vs, id) <==> v in vs && v.id != id
  {
    if vs != [] {
      WithoutIdMembers(vs[1..], id, v);
      assert vs == [vs[0]] + vs[1..];
    }
  }

  /** A list without the id passes the filter unchanged. */
  lemma {:induction false} WithoutAbsentId(vs: seq<Vehicle>, id: int)
    requires forall i :: 0 <= i < |vs| ==> vs[i].id != id
    ensures WithoutId(vs, id) == vs
  {
    if vs != [] {
      WithoutAbsentId(vs[1..], id);
    }
  }

  /** The filter keeps the order of what it keeps: filtering a
      concatenation filters each part. */
  lemma {:induction false} WithoutIdOfConcat(a: seq<Vehicle>, b: seq<Vehicle>, id: int)
    ensures WithoutId(a + b, id) == WithoutId(a, id) + WithoutId(b, id)
  {
    if a == [] {
      assert a + b == b;
    } else {
      assert (a + b)[1..] == a[1..] + b;
      WithoutIdOfConcat(a[1..], b, id);
    }
  }

  /** Removing an id twice is removing it once. */
  lemma WithoutIdIdempotent(vs: seq<Vehicle>, id: int)
    ensures WithoutId(WithoutId(vs, id), id) == WithoutId(vs, id)
  {
    WithoutAbsentId(WithoutId(vs, id), id);
  }

  /** Removing a vehicle from a list with unique ids shortens it by one. */
  lemma {:induction false} WithoutPresentId(vs: seq<Vehicle>, i: nat)
    requires i < |vs|
    requires forall j, k :: 0 <= j < k < |vs| ==> vs[j].id != vs[k].id
    ensures WithoutId(vs, vs[i].id) == vs[..i] + vs[i + 1..]
  {
    var a, b := vs[..i], vs[i + 1..];
    assert vs == a + [vs[i]] + b;
    OthersKeepTheirIds(vs, i);
    WithoutOnlyMatch(a, vs[i], b);
  }

  /** Removing the id of the one entry that carries it leaves the entries
      around it. */
  lemma WithoutOnlyMatch(a: seq<Vehicle>, v: Vehicle, b: seq<Vehicle>)
    requires forall i :: 0 <= i < |a| ==> a[i].id != v.id
    requires forall i :: 0 <= i < |b| ==> b[i].id != v.id
    ensures WithoutId(a + [v] + b, v.id) == a + b
  {
    var id, av := v.id, a + [v];
    WithoutIdOfConcat(av, b, id);
    WithoutIdOfConcat(a, [v], id);
    WithoutAbsentId(a, id);
    WithoutAbsentId(b, id);
    WithoutOwnId(v);
    assert WithoutId(av, id) == a;
  }

  lemma WithoutOwnId(v: Vehicle)
    ensures WithoutId([v], v.id) == []
  {
    assert [v][1..] == [];
  }

  /** In a list with unique ids, the entries before and after position i
      carry ids other than the one at i. */
  lemma OthersKeepTheirIds(vs: seq<Vehicle>, i: nat)
    requires i < |vs|
    requires forall j, k :: 0 <= j < k < |vs| ==> vs[j].id != vs[k].id
    ensures var a := vs[..i]; forall j :: 0 <= j < |a| ==> a[j].id != vs[i].id
    ensures var b := vs[i + 1..]; forall j :: 0 <= j < |b| ==> b[j].id != vs[i].id
  {
    var b := vs[i + 1..];
    forall j | 0 <= j < |b| ensures b[j].id != vs[i].id {
      assert b[j] == vs[i + 1 + j];
    }
  }

  /** The state of the manager that the handlers change */
  datatype ManagerState = ManagerState(
    vehicles: seq<Vehicle>, formData: map<string, string>, editingId: Option<int>, loading: bool)

  /** The state of the Vehicle component */
  class VehicleManager {
    var vehicles: seq<Vehicle>
    var formData: map<string, string>
    var editingId: Option<int>
    var loading: bool

    /** Between events the form has its four fields and no load is
        outstanding. */
    ghost predicate Valid()
      reads this
    {
      FormKeys <= formData.Keys && !loading
    }

    function State(): ManagerState
      reads this
    {
      ManagerState(vehicles, formData, editingId, loading)
    }

    /** The component as mounted: vehicles are loaded only when the
        stored role is exactly "DRIVER"; `response` is the outcome of that
        load. */
    constructor(role: Option<string>, response: LoadResponse)
      ensures Valid()
      ensures role == Some("DRIVER") ==> vehicles == LoadedVehicles(response)
      ensures role != Some("DRIVER") ==> vehicles == []
      ensures formData == EmptyForm && editingId.None? && !loading
    {
      vehicles := if role == Some("DRIVER") then LoadedVehicles(response) else [];
      formData := EmptyForm;
      editingId := None;
      loading := false;
    }

    /** `loadVehicles`: only the list changes, and loading is over on
        every path. */
    method LoadVehicles(response: LoadResponse)
      requires Valid()
      modifies this
      ensures Valid()
      ensures State() == old(State()).(vehicles := LoadedVehicles(response))
    {
      loading := true;
      match response {
        case LoadFailed =>
          vehicles := [];
        case Loaded(data) =>
          vehicles := if data.Some? then data.value else [];
      }
      loading := false;
    }

    /** `handleChange`: only the named field of the form changes. */
    method HandleChange(name: string, value: string)
      requires Valid()
      modifies this
      ensures Valid()
      ensures State() == old(State()).(formData := old(formData)[name := value])
      ensures forall k :: k in old(formData) && k != name ==> formData[k] == old(formData)[k]
    {
      formData := formData[name := value];
    }

    /** `handleEdit`: the form takes the vehicle's fields and the manager
        switches to editing that vehicle's id. */
    method HandleEdit(v: Vehicle)
      requires Valid()
      modifies this
      ensures Valid()
      ensures State() == old(State()).(formData := EditForm(v), editingId := Some(v.id))
    {
      formData := EditForm(v);
      editingId := Some(v.id);
    }

    /** `handleSubmit`: `request` is what is sent, `saved` whether the
        server accepted it and `reload` the outcome of the load that
        follows a save. A save empties the form, leaves editing and
        reloads the list; a failure changes nothing. */
    method HandleSubmit(saved: bool, reload: LoadResponse) returns (request: SaveRequest)
      requires Valid()
      modifies this
      ensures Valid()
      ensures request == SubmitRequest(old(formData), old(editingId))
      ensures saved ==> State() == ManagerState(LoadedVehicles(reload), EmptyForm, None, false)
      ensures !saved ==> State() == old(State())
    {
      request := SubmitRequest(formData, editingId);
      if saved {
        formData := EmptyForm;
        editingId := None;
        LoadVehicles(reload);
      }
    }

    /** `handleDelete`: a declined confirmation sends nothing and changes
        nothing; a deletion the server accepts drops every vehicle with
        that id, keeping the rest in order; a failed one changes nothing.
        `sent` says whether the request was made. */
    method HandleDelete(id: int, confirmed: bool, deleted: bool) returns (sent: bool)
      requires Valid()
      modifies this
      ensures Valid() && sent == confirmed
      ensures confirmed && deleted ==> State() == old(State()).(vehicles := WithoutId(old(vehicles), id))
      ensures !(confirmed && deleted) ==> State() == old(State())
    {
      if !confirmed {
        return false;
      }
      sent := true;
      if deleted {
        vehicles := WithoutId(vehicles, id);
      }
    }

    /** The Cancel Edit button: back to an empty add form. */
    method CancelEdit()
      requires Valid()
      modifies this
      ensures Valid()
      ensures State() == old(State()).(formData := EmptyForm, editingId := None)
    {
      editingId := None;
      formData := EmptyForm;
    }
  }
}
