/** The `SplineObject` component of `src/components/home/SplineObject.js`:
    which scene resource it loads, and its load callback. */
module SplineObject {
  import opened Wrappers
  import opened SplineScene
  import opened SplineContext

  /** The one scene resource every branch of the URL choice names. */
  const SceneUrl := "https://prod.spline.design/pmZ129ZaIsO9Pnvs/scene.splinecode"

  /** `getSceneUrl()` for a scene key and the current theme: every key and
      every theme, the loader's theme-independent branch and the default
      branch included, yield the same resource. */
  function GetSceneUrl(scene: string, theme: string): (url: string)
    ensures url == SceneUrl
  {
    if scene == "hero" then
      (if theme == "dark" then SceneUrl else SceneUrl)
    else if scene == "about" then
      (if theme == "dark" then SceneUrl else SceneUrl)
    else if scene == "loader" then
      SceneUrl
    else
      SceneUrl
  }

  /** One mounted `SplineObject`: its `scene` prop, its `splineRef` and the
      coordinator it reached through the context. */
  class SplineView {
    const scene: string
    const coordinator: SceneCoordinator
    var splineRef: Option<SceneHandle>

    constructor (scene: string, coordinator: SceneCoordinator)
      ensures this.scene == scene && this.coordinator == coordinator && splineRef == None
    {
      this.scene := scene;
      this.coordinator := coordinator;
      splineRef := None;
    }

    /** `onLoad(spline)`: keep the handle locally, register it under the
        scene key, then mark that key loaded. A loaded scene therefore always
        has a registered handle. */
    method OnLoad(spline: SceneHandle)
      requires coordinator.Valid()
      modifies this`splineRef, coordinator`registry, coordinator`loaded, coordinator`isLoaded
      ensures splineRef == Some(spline)
      ensures coordinator.Valid()
      ensures coordinator.registry == old(coordinator.registry)[scene := spline]
      ensures coordinator.Load() == SplineLoadedStep(old(coordinator.Load()), coordinator.pathname, scene)
      ensures old(coordinator.LoadedAreRegistered()) ==> coordinator.LoadedAreRegistered()
      ensures scene in coordinator.registry && IsSceneLoaded(coordinator.loaded, scene)
    {
      splineRef := Some(spline);
      coordinator.RegisterSplineObject(scene, spline);
      coordinator.SplineLoaded(scene);
    }
  }
}
