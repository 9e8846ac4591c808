/** Role-based access control: the table from (module, sub-module) pairs
    reported by the permissions API to dashboard routes, the set of routes a
    list of permissions allows, and the per-path check. */
module Permissions {
  import opened Wrappers
  import opened Text

  /** A permission entry. `subModId` is "" where the API sends null, an
      absent field or "" (all read as `sub_mod_id || ""`). The display fields
      mod_name, sub_mod_name and user_code play no part in routing. */
  datatype UserPermission = UserPermission(moduleId: string, subModId: string)

  /** The dashboard home, allowed to everyone. */
  const Home := "/dashboard"

  /** Composite key "module:sub_module" (lower case) to route. */
  const RouteTable: map<string, string> := map[
    "master:location" := "/dashboard/location",
    "master:item_category" := "/dashboard/item-category",
    "master:unit" := "/dashboard/unit",
    "master:item" := "/dashboard/item",
    "master:supplier" := "/dashboard/supplier",
    "master:recipe_type" := "/dashboard/recipe-type",
    "master:recipe_for_a_kg" := "/dashboard/recipe",
    "delivery_plan:schedule" := "/dashboard/schedule",
    "delivery_plan:requirement" := "/dashboard/requirement",
    "preparation:day_requirements" := "/dashboard/day-requirements",
    "preparation:material_receipt" := "/dashboard/material-receipt",
    "preparation:request_for_supplier" := "/dashboard/request-supplier",
    "packing:" := "/dashboard/packing",
    "packing:packing" := "/dashboard/packing",
    "cooking:" := "/dashboard/cooking",
    "cooking:cooking" := "/dashboard/cooking",
    "cleaning:material" := "/dashboard/cleaning/material",
    "cleaning:vessel" := "/dashboard/cleaning/vessel",
    "cleaning:preparation_area" := "/dashboard/cleaning/prep",
    "cleaning:packing_area" := "/dashboard/cleaning/pack",
    "distribution:food_allocation" := "/dashboard/food-allocation",
    "distribution:delivery" := "/dashboard/delivery",
    "view_media:" := "/dashboard/view-media",
    "view_media:view_media" := "/dashboard/view-media",
    "settings:module_master" := "/dashboard/settings/module-master",
    "settings:user_rights" := "/dashboard/settings/user-rights"
  ]

  function CompositeKey(p: UserPermission): string {
    LowerStr(p.moduleId) + ":" + LowerStr(p.subModId)
  }

  /** The route a permission grants, if its key is in the table. */
  function RouteOf(p: UserPermission): Option<string> {
    var key := CompositeKey(p);
    if key in RouteTable then Some(RouteTable[key]) else None
  }

  /** The allowed routes of a permission list: the home route and the route of
      every permission whose key is in the table. */
  function AllowedRoutes(perms: seq<UserPermission>): set<string> {
    {Home} + Granted(perms, RouteOf)
  }

  /** The values `f` finds for the elements of `xs`, in the order of a loop
      over `xs`. */
  function Granted<A, B>(xs: seq<A>, f: A -> Option<B>): set<B> {
    if xs == [] then {}
    else
      var last := f(xs[|xs| - 1]);
      Granted(xs[..|xs| - 1], f) + (if last.Some? then {last.value} else {})
  }

  lemma {:induction false} GrantedMembers<A, B>(xs: seq<A>, f: A -> Option<B>, r: B)
    ensures r in Granted(xs, f) <==> exists i :: 0 <= i < |xs| && f(xs[i]) == Some(r)
  {
    if xs != [] {
      var init := xs[..|xs| - 1];
      GrantedMembers(init, f, r);
      if exists i :: 0 <= i < |init| && f(init[i]) == Some(r) {
        var i :| 0 <= i < |init| && f(init[i]) == Some(r);
        assert xs[i] == init[i];
      }
      if exists i :: 0 <= i < |xs| && f(xs[i]) == Some(r) {
        var i :| 0 <= i < |xs| && f(xs[i]) == Some(r);
        if i < |init| { assert init[i] == xs[i]; }
      }
    }
  }

  /** buildAllowedRoutes: a loop over the permissions, adding each route found. */
  method BuildAllowedRoutes(permissions: seq<UserPermission>) returns (routes: set<string>)
    ensures routes == AllowedRoutes(permissions)
  {
    routes := {Home};
    for i := 0 to |permissions|
      invariant routes == AllowedRoutes(permissions[..i])
    {
      var p := permissions[i];
      var moduleKey := LowerStr(p.moduleId);
      var subKey := LowerStr(p.subModId);
      var compositeKey := moduleKey + ":" + subKey;
      if compositeKey in RouteTable {
        routes := routes + {RouteTable[compositeKey]};
      }
      assert permissions[..i + 1][..i] == permissions[..i];
    }
    assert permissions[..|permissions|] == permissions;
  }

  /** isRouteAllowed: the home route always, any other path when listed. */
  predicate IsRouteAllowed(path: string, allowedRoutes: set<string>) {
    path == Home || path in allowedRoutes
  }

  /** A route is allowed exactly when it is the home route or the route of
      one of the permissions. */
  lemma AllowedRoutesMembers(perms: seq<UserPermission>, r: string)
    ensures r in AllowedRoutes(perms) <==>
      r == Home || exists i :: 0 <= i < |perms| && RouteOf(perms[i]) == Some(r)
  {
    GrantedMembers(perms, RouteOf, r);
  }

  /** The checked form of a path against a permission list. */
  lemma RouteAllowedByPermissions(path: string, perms: seq<UserPermission>)
    ensures IsRouteAllowed(path, AllowedRoutes(perms)) <==>
      path == Home || exists i :: 0 <= i < |perms| && RouteOf(perms[i]) == Some(path)
  {
    AllowedRoutesMembers(perms, path);
  }

  /** Only the home route and routes of the table are ever allowed. */
  lemma AllowedRoutesInTable(perms: seq<UserPermission>, r: string)
    requires r in AllowedRoutes(perms)
    ensures r == Home || r in RouteTable.Values
  {
    AllowedRoutesMembers(perms, r);
    if r != Home {
      var i :| 0 <= i < |perms| && RouteOf(perms[i]) == Some(r);
      assert RouteTable[CompositeKey(perms[i])] == r;
    }
  }

  /** With no permissions only the home route is allowed; this is also the
      state after logout or a failed permission fetch. */
  lemma NoPermissions()
    ensures AllowedRoutes([]) == {Home}
  {
  }

  /** Granting more permissions never takes a route away, and the order and
      repetition of the permissions does not matter. */
  lemma AllowedRoutesMonotone(a: seq<UserPermission>, b: seq<UserPermission>)
    requires forall p :: p in a ==> p in b
    ensures AllowedRoutes(a) <= AllowedRoutes(b)
  {
    forall r | r in AllowedRoutes(a) ensures r in AllowedRoutes(b) {
      AllowedRoutesMembers(a, r);
      AllowedRoutesMembers(b, r);
      if r != Home {
        var i :| 0 <= i < |a| && RouteOf(a[i]) == Some(r);
        assert a[i] in b;
      }
    }
  }

  lemma AllowedRoutesOrderFree(a: seq<UserPermission>, b: seq<UserPermission>)
    requires forall p :: p in a <==> p in b
    ensures AllowedRoutes(a) == AllowedRoutes(b)
  {
    AllowedRoutesMonotone(a, b);
    AllowedRoutesMonotone(b, a);
  }

  /** The key ignores letter case in both fields. */
  lemma RouteIgnoresCase(p: UserPermission)
    ensures RouteOf(UserPermission(LowerStr(p.moduleId), LowerStr(p.subModId))) == RouteOf(p)
  {
    LowerIdempotent(p.moduleId);
    LowerIdempotent(p.subModId);
  }

  /** Packing, cooking and view media are standalone modules: the permission
      with an empty sub-module and the one naming the module again both grant
      the module's single route. */
  lemma StandaloneModules()
    ensures RouteOf(UserPermission("packing", "")) == Some("/dashboard/packing")
    ensures RouteOf(UserPermission("packing", "packing")) == Some("/dashboard/packing")
    ensures RouteOf(UserPermission("cooking", "")) == Some("/dashboard/cooking")
    ensures RouteOf(UserPermission("cooking", "cooking")) == Some("/dashboard/cooking")
    ensures RouteOf(UserPermission("view_media", "")) == Some("/dashboard/view-media")
    ensures RouteOf(UserPermission("view_media", "view_media")) == Some("/dashboard/view-media")
  {
    PackingRoutes();
    CookingRoutes();
    ViewMediaRoutes();
  }

  lemma PackingRoutes()
    ensures RouteOf(UserPermission("packing", "")) == Some("/dashboard/packing")
    ensures RouteOf(UserPermission("packing", "packing")) == Some("/dashboard/packing")
  {
    KeyOfLowerCase("packing", "");
    assert "packing" + ":" + "" == "packing:";
    KeyOfLowerCase("packing", "packing");
    assert "packing" + ":" + "packing" == "packing:packing";
  }

  lemma CookingRoutes()
    ensures RouteOf(UserPermission("cooking", "")) == Some("/dashboard/cooking")
    ensures RouteOf(UserPermission("cooking", "cooking")) == Some("/dashboard/cooking")
  {
    KeyOfLowerCase("cooking", "");
    assert "cooking" + ":" + "" == "cooking:";
    KeyOfLowerCase("cooking", "cooking");
    assert "cooking" + ":" + "cooking" == "cooking:cooking";
  }

  lemma ViewMediaRoutes()
    ensures RouteOf(UserPermission("view_media", "")) == Some("/dashboard/view-media")
    ensures RouteOf(UserPermission("view_media", "view_media")) == Some("/dashboard/view-media")
  {
    KeyOfLowerCase("view_media", "");
    assert "view_media" + ":" + "" == "view_media:";
    KeyOfLowerCase("view_media", "view_media");
    assert "view_media" + ":" + "view_media" == "view_media:view_media";
  }

  lemma KeyOfLowerCase(m: string, sub: string)
    requires forall i :: 0 <= i < |m| ==> !IsUpper(m[i])
    requires forall i :: 0 <= i < |sub| ==> !IsUpper(sub[i])
    ensures CompositeKey(UserPermission(m, sub)) == m + ":" + sub
  {
    LowerOfLower(m);
    LowerOfLower(sub);
  }
}
