/** Route guarding by sign-in and role. The authentication state (user,
    loading flag, admin and staff flags) is an input. */
module ProtectedRoute {
  import opened Wrappers

  datatype RequiredRole = AdminRole | StaffRole

  datatype Access =
    | LoadingScreen
    | RedirectToAuth
    | AccessDenied(message: string)
    | Children

  const AdminDenied: string := "You don't have permission to access this page."
  const StaffDenied: string := "Staff access required."

  /** `ProtectedRoute`, in the order of its checks. */
  function Decide(loading: bool, signedIn: bool, isAdmin: bool, isStaff: bool,
                  requiredRole: Option<RequiredRole>): (a: Access)
    ensures loading <==> a == LoadingScreen
    ensures a == RedirectToAuth <==> !loading && !signedIn
    ensures a == AccessDenied(AdminDenied) <==> !loading && signedIn && requiredRole == Some(AdminRole) && !isAdmin
    ensures a == AccessDenied(StaffDenied) <==>
              !loading && signedIn && requiredRole == Some(StaffRole) && !isAdmin && !isStaff
    ensures a.AccessDenied? ==> a.message == AdminDenied || a.message == StaffDenied
  {
    if loading then LoadingScreen
    else if !signedIn then RedirectToAuth
    else if requiredRole == Some(AdminRole) && !isAdmin then AccessDenied(AdminDenied)
    else if requiredRole == Some(StaffRole) && !isAdmin && !isStaff then AccessDenied(StaffDenied)
    else Children
  }

  /** The content renders exactly for a settled, signed-in user whose flags
      meet the required role: an admin passes every check, staff passes the
      staff check, and a route without a required role admits every user. */
  lemma ChildrenIff(loading: bool, signedIn: bool, isAdmin: bool, isStaff: bool,
                    requiredRole: Option<RequiredRole>)
    ensures Decide(loading, signedIn, isAdmin, isStaff, requiredRole) == Children <==>
            !loading && signedIn &&
            (requiredRole == Some(AdminRole) ==> isAdmin) &&
            (requiredRole == Some(StaffRole) ==> isAdmin || isStaff)
  {
  }

  /** Granting a role never takes access away. */
  lemma MonotoneInRoles(loading: bool, signedIn: bool, isAdmin: bool, isStaff: bool,
                        requiredRole: Option<RequiredRole>)
    requires Decide(loading, signedIn, isAdmin, isStaff, requiredRole) == Children
    ensures Decide(loading, signedIn, true, isStaff, requiredRole) == Children
    ensures Decide(loading, signedIn, isAdmin, true, requiredRole) == Children
  {
  }
}
