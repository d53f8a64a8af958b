/**
 * `UrlParametersService` as an object: the page's parameters, the shared
 * default parameters (which `getStringFromParams` sorts in place), the
 * router's current URL and the `replaceState` calls made so far.
 */
module UrlService {
  import opened Strings
  import opened UrlModel
  import UrlProperties

  class UrlParametersService {
    var parameters: Params
    /** `DefaultUrlParameters`. */
    var defaults: Params
    /** `VisibleParametersPerPage`. */
    const visible: map<string, seq<string>>
    /** `router.url`. */
    var routerUrl: string
    /** `encodeURI`. */
    const encode: string -> string
    /** Every `location.replaceState(path, query)` call, oldest first. */
    ghost var replaced: seq<(string, string)>

    /** The visible parameters of the router's current page. */
    function Visible(): seq<string>
      reads this
    {
      VisibleFor(visible, PathOf(routerUrl))
    }

    /** `combineUrlPerPage` can run: every visible country or region
      * parameter and its default are arrays. */
    predicate CanRender()
      reads this
    {
      RenderableAll(parameters, defaults, Visible())
    }

    /** The parameters start as a copy of the defaults. */
    constructor(defaults: Params, visible: map<string, seq<string>>, encode: string -> string,
                routerUrl: string)
      ensures this.parameters == defaults && this.defaults == defaults
      ensures this.visible == visible && this.encode == encode && this.routerUrl == routerUrl
      ensures replaced == []
    {
      this.parameters := defaults;
      this.defaults := defaults;
      this.visible := visible;
      this.encode := encode;
      this.routerUrl := routerUrl;
      replaced := [];
    }

    /** The `.sort()` calls of `getStringFromParams` on an array parameter
      * and on its default. */
    method SortInPlace(name: string)
      requires IsListParam(name) && Renderable(parameters, defaults, name)
      modifies this`parameters, this`defaults
      ensures parameters == SortedAt(old(parameters), name) && parameters[name].Items?
      ensures defaults == SortedAt(old(defaults), name) && defaults[name].Items?
      ensures parameters[name].items == Sort(old(parameters)[name].items)
      ensures defaults[name].items == Sort(old(defaults)[name].items)
    {
      parameters := parameters[name := Items(Sort(parameters[name].items))];
      defaults := defaults[name := Items(Sort(defaults[name].items))];
    }

    /** `getStringFromParams(name)`. */
    method GetStringFromParams(name: string) returns (cell: string)
      requires Renderable(parameters, defaults, name)
      modifies this`parameters, this`defaults
      ensures cell == Cell(old(parameters), old(defaults), name, encode)
      ensures parameters == SortedAt(old(parameters), name)
      ensures defaults == SortedAt(old(defaults), name)
    {
      var s := "";
      if name == "countries" || name == "regions" {
        SortInPlace(name);
        s := ListText(name, parameters[name].items, defaults[name].items);
      } else {
        s := if Get(parameters, name) != Get(defaults, name) then name + "=" + Show(Get(parameters, name))
             else "";
      }
      cell := encode(s);
    }

    /** `getParamsStingForPage(page)`. */
    method GetParamsStringForPage(page: string) returns (line: string)
      requires RenderableAll(parameters, defaults, VisibleFor(visible, page))
      modifies this`parameters, this`defaults
      ensures line == ParamsLine(old(parameters), old(defaults), VisibleFor(visible, page), encode)
      ensures parameters == SortedAlong(old(parameters), VisibleFor(visible, page))
      ensures defaults == SortedAlong(old(defaults), VisibleFor(visible, page))
    {
      var names := VisibleFor(visible, page);
      var result: seq<string> := [];
      var i := 0;
      while i < |names|
        invariant 0 <= i <= |names|
        invariant parameters == SortedAlong(old(parameters), names[..i])
        invariant defaults == SortedAlong(old(defaults), names[..i])
        invariant result == Cells(old(parameters), old(defaults), names[..i], encode)
      {
        UrlProperties.SortedAlongRenderable(old(parameters), old(defaults), names[..i], names);
        UrlProperties.CellIgnoresSorting(old(parameters), old(defaults), names[..i], names[i], encode);
        var cell := GetStringFromParams(names[i]);
        if |cell| > 0 {
          result := result + [cell];
        }
        assert names[..i + 1][..i] == names[..i];
        i := i + 1;
      }
      assert names[..i] == names;
      line := Join(result, '&');
    }

    /** `combineUrlPerPage`: replaces the location with the router's path and
      * the page's query. */
    method CombineUrlPerPage()
      requires CanRender()
      modifies this`parameters, this`defaults, this`replaced
      ensures replaced == old(replaced) + [(PathOf(routerUrl),
                QueryLine(ParamsLine(old(parameters), old(defaults), Visible(), encode)))]
      ensures parameters == SortedAlong(old(parameters), Visible())
      ensures defaults == SortedAlong(old(defaults), Visible())
    {
      var path := PathOf(routerUrl);
      var params := GetParamsStringForPage(path);
      var line := if |params| > 0 then "?" + params else params;
      replaced := replaced + [(path, line)];
    }

    /** `setGridPosition(row)`, `row` being the argument's `toString()`. */
    method SetGridPosition(row: string)
      requires Text(row) != Get(parameters, "row") ==> CanRender()
      modifies this`parameters, this`defaults, this`replaced
      ensures Text(row) == Get(old(parameters), "row") ==>
                parameters == old(parameters) && defaults == old(defaults) && replaced == old(replaced)
      ensures Text(row) != Get(old(parameters), "row") ==>
                parameters == SortedAlong(Assigned(old(parameters), "row", Text(row)), Visible())
                && defaults == SortedAlong(old(defaults), Visible())
                && replaced == old(replaced) + [(PathOf(routerUrl),
                     QueryLine(ParamsLine(Assigned(old(parameters), "row", Text(row)), old(defaults),
                                          Visible(), encode)))]
    {
      if Text(row) != Get(parameters, "row") {
        parameters := parameters["row" := Text(row)];
        CombineUrlPerPage();
      }
    }

    /** `setActiveHouse(activeHouse)`, the argument given as its `toString()`. */
    method SetActiveHouse(activeHouse: string)
      requires Text(activeHouse) != Get(parameters, "activeHouse") ==> CanRender()
      modifies this`parameters, this`defaults, this`replaced
      ensures Text(activeHouse) == Get(old(parameters), "activeHouse") ==>
                parameters == old(parameters) && defaults == old(defaults) && replaced == old(replaced)
      ensures Text(activeHouse) != Get(old(parameters), "activeHouse") ==>
                parameters == SortedAlong(Assigned(old(parameters), "activeHouse", Text(activeHouse)), Visible())
                && defaults == SortedAlong(old(defaults), Visible())
                && replaced == old(replaced) + [(PathOf(routerUrl),
                     QueryLine(ParamsLine(Assigned(old(parameters), "activeHouse", Text(activeHouse)),
                                          old(defaults), Visible(), encode)))]
    {
      if Text(activeHouse) != Get(parameters, "activeHouse") {
        parameters := parameters["activeHouse" := Text(activeHouse)];
        CombineUrlPerPage();
      }
    }

    /** `removeActiveHouse`. */
    method RemoveActiveHouse()
      requires CanRender()
      modifies this`parameters, this`defaults, this`replaced
      ensures parameters == SortedAlong(Assigned(old(parameters), "activeHouse", Undefined), Visible())
      ensures defaults == SortedAlong(old(defaults), Visible())
      ensures replaced == old(replaced) + [(PathOf(routerUrl),
                QueryLine(ParamsLine(Assigned(old(parameters), "activeHouse", Undefined), old(defaults),
                                     Visible(), encode)))]
    {
      parameters := parameters["activeHouse" := Undefined];
      CombineUrlPerPage();
    }

    /** `setActiveImage(activeImage)`: the argument, given as its
      * `toString()`, is compared with `activeHouse`, as written, and stored
      * as `activeImage`. */
    method SetActiveImage(activeImage: string)
      requires Text(activeImage) != Get(parameters, "activeHouse") ==> CanRender()
      modifies this`parameters, this`defaults, this`replaced
      ensures Text(activeImage) == Get(old(parameters), "activeHouse") ==>
                parameters == old(parameters) && defaults == old(defaults) && replaced == old(replaced)
      ensures Text(activeImage) != Get(old(parameters), "activeHouse") ==>
                parameters == SortedAlong(Assigned(old(parameters), "activeImage", Text(activeImage)), Visible())
                && defaults == SortedAlong(old(defaults), Visible())
                && replaced == old(replaced) + [(PathOf(routerUrl),
                     QueryLine(ParamsLine(Assigned(old(parameters), "activeImage", Text(activeImage)),
                                          old(defaults), Visible(), encode)))]
    {
      if Text(activeImage) != Get(parameters, "activeHouse") {
        parameters := parameters["activeImage" := Text(activeImage)];
        CombineUrlPerPage();
      }
    }

    /** `removeActiveImage`. */
    method RemoveActiveImage()
      requires CanRender()
      modifies this`parameters, this`defaults, this`replaced
      ensures parameters == SortedAlong(Assigned(old(parameters), "activeImage", Undefined), Visible())
      ensures defaults == SortedAlong(old(defaults), Visible())
      ensures replaced == old(replaced) + [(PathOf(routerUrl),
                QueryLine(ParamsLine(Assigned(old(parameters), "activeImage", Undefined), old(defaults),
                                     Visible(), encode)))]
    {
      parameters := parameters["activeImage" := Undefined];
      CombineUrlPerPage();
    }

    /** The merge at the start of `dispatchToStore(params)`. */
    method DispatchToStore(params: Params)
      modifies this`parameters
      ensures parameters == Merged(defaults, old(parameters), params)
    {
      parameters := defaults + parameters + params;
    }
  }
}
