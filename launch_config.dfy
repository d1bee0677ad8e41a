/**
 * Where both launchers read their settings: a JVM system property first, an
 * environment variable second.  `System.getProperty` and `System.getenv`
 * return `null` for an absent key; here the property table and the
 * environment are maps, and an absent key is a key not in the map.
 */
module LaunchConfig {
  import opened Wrappers

  /** The JVM system properties, as `System.getProperty` sees them. */
  type Properties = map<string, string>

  /** The process environment, as `System.getenv` sees it. */
  type Environment = map<string, string>

  const MODULE_HOME_PROPERTY: string := "module.home"
  const MODULE_HOME_VARIABLE: string := "MODULE_HOME"
  const DEFAULT_MODULE_HOME: string := "/opt/spring/modules"

  /**
   * The value of a setting: the property when it is set, else the environment
   * variable when that is set, else nothing.
   */
  function Setting(props: Properties, property: string, env: Environment, variable: string): (r: Option<string>)
    ensures r.None? <==> property !in props && variable !in env
    ensures property in props ==> r == Some(props[property])
    ensures property !in props && variable in env ==> r == Some(env[variable])
  {
    if property in props then Some(props[property])
    else if variable in env then Some(env[variable])
    else None
  }

  /** The module home directory: never missing, since a default stands in. */
  function ModuleHome(props: Properties, env: Environment): (home: string)
    ensures home in {DEFAULT_MODULE_HOME} + props.Values + env.Values
    ensures MODULE_HOME_PROPERTY in props ==> home == props[MODULE_HOME_PROPERTY]
    ensures MODULE_HOME_PROPERTY !in props && MODULE_HOME_VARIABLE in env ==> home == env[MODULE_HOME_VARIABLE]
    ensures MODULE_HOME_PROPERTY !in props && MODULE_HOME_VARIABLE !in env ==> home == DEFAULT_MODULE_HOME
  {
    match Setting(props, MODULE_HOME_PROPERTY, env, MODULE_HOME_VARIABLE)
    case Some(h) => h
    case None => DEFAULT_MODULE_HOME
  }
}
