/**
  The scene registry: scenes by name, and the current scene. The static
  `_currentScene` lives in the controller object here; a Scene is an
  opaque object known by its name (its contents are engine state).
 */
module Scenes {
  import opened Wrappers

  const MainSceneName := "Main Game"

  class Scene {
    const name: string

    constructor (name: string)
      ensures this.name == name
    {
      this.name := name;
    }
  }

  /** The message of the InvalidOperationException for a missing scene. */
  function MissingSceneMessage(name: string): string
  {
    "Scene '" + name + "' doest not exist."
  }

  class SceneController {
    var scenesDict: map<string, Scene>
    var currentScene: Scene?

    /** Every stored scene carries the name it is stored under. */
    ghost predicate Valid()
      reads this, set n | n in scenesDict :: scenesDict[n]
    {
      forall n :: n in scenesDict ==> scenesDict[n].name == n
    }

    /** An empty dictionary and no current scene. */
    constructor ()
      ensures scenesDict == map[] && currentScene == null
      ensures Valid()
    {
      scenesDict := map[];
      currentScene := null;
    }

    /**
      The scene stored under `name`; when there is none, a fresh scene is
      added under that name and returned. No other entry changes.
     */
    method CreateScene(name: string) returns (s: Scene)
      requires Valid()
      modifies this
      ensures name in old(scenesDict) ==> s == old(scenesDict)[name] && scenesDict == old(scenesDict)
      ensures name !in old(scenesDict) ==> fresh(s) && scenesDict == old(scenesDict)[name := s]
      ensures s.name == name
      ensures currentScene == old(currentScene)
      ensures Valid()
    {
      if name in scenesDict {
        return scenesDict[name];
      }
      s := new Scene(name);
      scenesDict := scenesDict[name := s];
    }

    /**
      Makes the scene stored under `name` current; fails with
      InvalidOperationException for an unknown name and then changes nothing.
     */
    method SetCurrentScene(name: string) returns (outcome: Outcome)
      modifies this
      ensures outcome.Pass? <==> name in scenesDict
      ensures outcome.Pass? ==> currentScene == scenesDict[name]
      ensures outcome.Fail? ==> outcome.error == InvalidOperation(MissingSceneMessage(name))
      ensures outcome.Fail? ==> currentScene == old(currentScene)
      ensures scenesDict == old(scenesDict)
    {
      if name in scenesDict {
        currentScene := scenesDict[name];
        outcome := Pass;
      } else {
        outcome := Fail(InvalidOperation(MissingSceneMessage(name)));
      }
    }

    /**
      Creates the main scene (or finds it) and makes it current. A second
      call keeps the same main scene and adds nothing.
     */
    method Initialise()
      requires Valid()
      modifies this
      ensures MainSceneName in scenesDict && currentScene == scenesDict[MainSceneName]
      ensures currentScene.name == MainSceneName
      ensures MainSceneName in old(scenesDict) ==> scenesDict == old(scenesDict)
      ensures MainSceneName !in old(scenesDict) ==>
        scenesDict.Keys == old(scenesDict.Keys) + {MainSceneName} && fresh(currentScene)
        && forall n :: n in old(scenesDict) ==> scenesDict[n] == old(scenesDict)[n]
      ensures Valid()
    {
      var s := CreateScene(MainSceneName);
      var outcome := SetCurrentScene(MainSceneName);
      assert outcome.Pass?;
    }
  }
}
