/** The permission gate in front of the camera. */
module Permissions {

  datatype Permission = Camera | WriteExternalStorage

  /** The permissions the activity asks for, in the order it asks. */
  const RequiredPermissions: seq<Permission> := [Camera, WriteExternalStorage]

  const PermissionRequestCode: int := 101

  /**
   * `permissions.filter { checkSelfPermission(it) != PERMISSION_GRANTED }`:
   * exactly the permissions not granted, each where it stood.
   */
  function NotGranted(permissions: seq<Permission>, granted: set<Permission>): (r: seq<Permission>)
    ensures |r| <= |permissions|
    ensures forall p :: p in r <==> p in permissions && p !in granted
  {
    if permissions == [] then []
    else (if permissions[0] in granted then [] else [permissions[0]]) + NotGranted(permissions[1..], granted)
  }

  /** The filter keeps the original order: filtering a concatenation filters each part. */
  lemma {:induction false} NotGrantedAppend(a: seq<Permission>, b: seq<Permission>, granted: set<Permission>)
    ensures NotGranted(a + b, granted) == NotGranted(a, granted) + NotGranted(b, granted)
  {
    if a != [] {
      assert (a + b)[0] == a[0] && (a + b)[1..] == a[1..] + b;
      NotGrantedAppend(a[1..], b, granted);
      var head := if a[0] in granted then [] else [a[0]];
      assert head + (NotGranted(a[1..], granted) + NotGranted(b, granted))
          == (head + NotGranted(a[1..], granted)) + NotGranted(b, granted);
    } else {
      assert a + b == b;
    }
  }

  /** A list none of whose permissions is granted is requested as it is. */
  lemma {:induction false} NotGrantedNoneGranted(permissions: seq<Permission>, granted: set<Permission>)
    requires forall j :: 0 <= j < |permissions| ==> permissions[j] !in granted
    ensures NotGranted(permissions, granted) == permissions
  {
    if permissions != [] {
      NotGrantedNoneGranted(permissions[1..], granted);
    }
  }

  datatype GateAction =
    | LaunchCamera
    | RequestPermissions(permissions: seq<Permission>, requestCode: int)

  /**
   * `checkPermissionsAndLaunchCamera`: launch the camera when every required
   * permission is granted, otherwise request exactly the missing ones.
   */
  function PermissionGate(granted: set<Permission>): (r: GateAction)
    ensures r.LaunchCamera? <==> forall p :: p in RequiredPermissions ==> p in granted
    ensures r.RequestPermissions? ==>
      r.permissions == NotGranted(RequiredPermissions, granted) && r.requestCode == PermissionRequestCode
  {
    var needed := NotGranted(RequiredPermissions, granted);
    assert |needed| > 0 ==> needed[0] in needed;
    if |needed| > 0 then RequestPermissions(needed, PermissionRequestCode) else LaunchCamera
  }

  /** With nothing granted, both permissions are requested, camera first. */
  lemma PermissionGateNothingGranted()
    ensures PermissionGate({}) == RequestPermissions([Camera, WriteExternalStorage], PermissionRequestCode)
  {
    NotGrantedNoneGranted(RequiredPermissions, {});
  }

  /** With only the camera granted, only storage is requested. */
  lemma PermissionGateCameraGranted()
    ensures PermissionGate({Camera}) == RequestPermissions([WriteExternalStorage], PermissionRequestCode)
  {
    NotGrantedAppend([Camera], [WriteExternalStorage], {Camera});
  }
}
