/** The interface-text tables of `app/lib/i18n.ts`, the choice of table from the
    browser locale, and `{name}` placeholder substitution. */
module I18n {
  import opened Wrappers
  import opened Text

  /** The languages that have a table of interface texts. */
  datatype Lang = En | Zh | Es | Fr

  function Code(l: Lang): string {
    match l
    case En => "en"
    case Zh => "zh"
    case Es => "es"
    case Fr => "fr"
  }

  /** The table of a language, keyed by the field names of `Translations`; each
      table defines exactly those fields. */
  function Table(l: Lang): (t: map<string, string>)
    ensures t.Keys == Fields
  {
    match l
    case En => EnTableKeys(); EnTable
    case Zh => ZhTableKeys(); ZhTable
    case Es => EsTableKeys(); EsTable
    case Fr => FrTableKeys(); FrTable
  }

  lemma EnTableKeys() ensures EnTable.Keys == Fields {}
  lemma ZhTableKeys() ensures ZhTable.Keys == Fields {}
  lemma EsTableKeys() ensures EsTable.Keys == Fields {}
  lemma FrTableKeys() ensures FrTable.Keys == Fields {}

  /** `getTranslations`: the table chosen from `navigator.language`, which is
      `None` during server-side rendering. A language other than English is chosen
      exactly when the lowercased locale starts with its code. */
  function GetTranslations(locale: Option<string>): (r: Lang)
    ensures locale.None? ==> r == En
    ensures forall l :: l != En ==>
              (r == l <==> locale.Some? && StartsWith(Lower(locale.value), Code(l)))
  {
    if locale.None? then En
    else
      var lower := Lower(locale.value);
      if StartsWith(lower, "zh") then Zh
      else if StartsWith(lower, "es") then Es
      else if StartsWith(lower, "fr") then Fr
      else En
  }

  /** The choice does not depend on the letter case of the locale. */
  lemma GetTranslationsIgnoresCase(locale: string)
    ensures GetTranslations(Some(Lower(locale))) == GetTranslations(Some(locale))
  {
    LowerIdempotent(locale);
  }

  /** Japanese (and every other locale without a table) gets English. */
  lemma JapaneseLocaleGetsEnglish()
    ensures GetTranslations(Some("ja-JP")) == En
  {
    var lower := Lower("ja-JP");
    assert lower[0] == 'j';
  }

  /** End of the run of word characters starting at `i`. */
  function WordRunEnd(t: string, i: nat): (r: nat)
    requires i <= |t|
    ensures i <= r <= |t|
    ensures forall k :: i <= k < r ==> IsWordChar(t[k])
    ensures r == |t| || !IsWordChar(t[r])
    decreases |t| - i
  {
    if i < |t| && IsWordChar(t[i]) then WordRunEnd(t, i + 1) else i
  }

  /** `t[p..q+1]` is a `{word}` placeholder: a match of `/{(\w+)}/`. */
  predicate PlaceholderAt(t: string, p: int, q: int) {
    0 <= p && p + 1 < q < |t| && t[p] == '{' && t[q] == '}'
    && forall k :: p < k < q ==> IsWordChar(t[k])
  }

  /** The text substituted for placeholder `key`: the parameter when it is present
      and non-empty, otherwise the placeholder itself. */
  function Substitute(key: string, params: map<string, string>): string {
    if key in params && params[key] != "" then params[key] else "{" + key + "}"
  }

  /** `formatTranslation`: one left-to-right pass of `/{(\w+)}/g`. Parameter
      values are the strings the source obtains with `toString()`. */
  function Format(t: string, params: map<string, string>): (r: string)
    ensures (forall p, q :: !PlaceholderAt(t, p, q)) ==> r == t
    decreases |t|
  {
    if t == [] then []
    else
      var q := WordRunEnd(t, 1);
      if t[0] == '{' && q > 1 && q < |t| && t[q] == '}' then
        assert PlaceholderAt(t, 0, q);
        Substitute(t[1..q], params) + Format(t[q + 1..], params)
      else
        assert forall p, q :: PlaceholderAt(t[1..], p, q) ==> PlaceholderAt(t, p + 1, q + 1);
        [t[0]] + Format(t[1..], params)
  }

  /** A placeholder is replaced by its substitute and the rest of the template is
      formatted after it: the substituted text is never scanned again. */
  lemma FormatPlaceholder(key: string, rest: string, params: map<string, string>)
    requires |key| > 0 && forall k :: 0 <= k < |key| ==> IsWordChar(key[k])
    ensures Format("{" + key + "}" + rest, params) == Substitute(key, params) + Format(rest, params)
  {
    var t := "{" + key + "}" + rest;
    WordRunFrom(t, 1, |key| + 1);
    assert t[1..|key| + 1] == key;
    assert t[|key| + 2..] == rest;
  }

  lemma {:induction false} WordRunFrom(t: string, i: nat, q: nat)
    requires i <= q < |t| && !IsWordChar(t[q])
    requires forall k :: i <= k < q ==> IsWordChar(t[k])
    ensures WordRunEnd(t, i) == q
    decreases q - i
  {
    if i < q {
      WordRunFrom(t, i + 1, q);
    }
  }

  /** Parameters that are all empty leave every template unchanged. */
  lemma {:induction false} FormatEmptyParams(t: string, params: map<string, string>)
    requires forall k :: k in params ==> params[k] == ""
    ensures Format(t, params) == t
    decreases |t|
  {
    if t != [] {
      var q := WordRunEnd(t, 1);
      if t[0] == '{' && q > 1 && q < |t| && t[q] == '}' {
        FormatEmptyParams(t[q + 1..], params);
        PlaceholderKept(t, q, params);
      } else {
        FormatEmptyParams(t[1..], params);
        assert t == [t[0]] + t[1..];
      }
    }
  }

  /** One step of `FormatEmptyParams`: a placeholder with no value is kept. */
  lemma PlaceholderKept(t: string, q: nat, params: map<string, string>)
    requires forall k :: k in params ==> params[k] == ""
    requires 1 < q < |t| && q == WordRunEnd(t, 1) && t[0] == '{' && t[q] == '}'
    requires Format(t[q + 1..], params) == t[q + 1..]
    ensures Format(t, params) == t
  {
    SplitAtPlaceholder(t, q);
    assert Substitute(t[1..q], params) == "{" + t[1..q] + "}";
  }

  /** A template that opens with a placeholder is that placeholder and the rest. */
  lemma SplitAtPlaceholder(t: string, q: nat)
    requires 1 < q < |t| && t[0] == '{' && t[q] == '}'
    ensures t == "{" + t[1..q] + "}" + t[q + 1..]
  {
    assert t == [t[0]] + t[1..q] + [t[q]] + t[q + 1..];
  }

  /** The pass is not recursive: a value that itself looks like a placeholder is
      kept as it is. */
  lemma FormatSinglePass()
    ensures Format("{a}", map["a" := "{b}", "b" := "x"]) == "{b}"
  {
    FormatPlaceholder("a", "", map["a" := "{b}", "b" := "x"]);
    assert "{" + "a" + "}" + "" == "{a}";
  }

  /** The field names of the `Translations` interface. */
  const Fields: set<string> := {
    "loading", "error", "close", "back",
    "next", "complete", "appTitle", "appSubtitle",
    "storeSession", "fridgeCheck", "pantryCheck", "dashboard",
    "storeSessionDesc", "fridgeCheckDesc", "pantryCheckDesc", "scanningTitle",
    "stabilizeCamera", "detectingItems", "analyzing", "foundItems",
    "tapToCapture", "autoCapturing", "freshness", "recommendation",
    "buy", "check", "avoid", "confidence",
    "sessionSummary", "itemsScanned", "averageFreshness", "recommendations",
    "startSession", "completeSession", "clearAll", "viewHistory",
    "buyRecommended", "checkCarefully", "avoidItem"
  }

  const EnTable: map<string, string> := map[
    "loading" := "Loading...",
    "error" := "Error",
    "close" := "Close",
    "back" := "Back",
    "next" := "Next",
    "complete" := "Complete",
    "appTitle" := "FruitAI",
    "appSubtitle" := "AI-Powered Freshness Scanner",
    "storeSession" := "Store Session",
    "fridgeCheck" := "Fridge Check",
    "pantryCheck" := "Pantry Scan",
    "dashboard" := "Dashboard",
    "storeSessionDesc" := "Scan multiple items while shopping to compare freshness and make the best choices",
    "fridgeCheckDesc" := "Monitor what needs to be used soon and track freshness of stored produce",
    "pantryCheckDesc" := "Keep track of stored items and get alerts when they need attention",
    "scanningTitle" := "Scanning Session",
    "stabilizeCamera" := "Hold camera steady to detect items",
    "detectingItems" := "Detecting items...",
    "analyzing" := "Analyzing freshness...",
    "foundItems" := "Found {count} items",
    "tapToCapture" := "Tap to capture",
    "autoCapturing" := "Auto-capturing in {seconds}s",
    "freshness" := "Freshness",
    "recommendation" := "Recommendation",
    "buy" := "Buy",
    "check" := "Check",
    "avoid" := "Avoid",
    "confidence" := "Confidence",
    "sessionSummary" := "Session Summary",
    "itemsScanned" := "Items Scanned",
    "averageFreshness" := "Average Freshness",
    "recommendations" := "Recommendations",
    "startSession" := "Start Session",
    "completeSession" := "Complete Session",
    "clearAll" := "Clear All",
    "viewHistory" := "View History",
    "buyRecommended" := "Recommended to Buy",
    "checkCarefully" := "Check Carefully",
    "avoidItem" := "Avoid This Item"
  ]

  const ZhTable: map<string, string> := map[
    "loading" := "加载中...",
    "error" := "错误",
    "close" := "关闭",
    "back" := "返回",
    "next" := "下一步",
    "complete" := "完成",
    "appTitle" := "FruitAI",
    "appSubtitle" := "AI智能新鲜度扫描器",
    "storeSession" := "商店扫描",
    "fridgeCheck" := "冰箱检查",
    "pantryCheck" := "储藏室扫描",
    "dashboard" := "仪表板",
    "storeSessionDesc" := "购物时扫描多个商品，比较新鲜度，做出最佳选择",
    "fridgeCheckDesc" := "监控需要尽快使用的物品，跟踪储存农产品的新鲜度",
    "pantryCheckDesc" := "跟踪储存物品，在需要注意时获得提醒",
    "scanningTitle" := "扫描会话",
    "stabilizeCamera" := "保持相机稳定以检测物品",
    "detectingItems" := "正在检测物品...",
    "analyzing" := "正在分析新鲜度...",
    "foundItems" := "发现 {count} 个物品",
    "tapToCapture" := "点击拍摄",
    "autoCapturing" := "{seconds}秒后自动拍摄",
    "freshness" := "新鲜度",
    "recommendation" := "建议",
    "buy" := "购买",
    "check" := "检查",
    "avoid" := "避免",
    "confidence" := "置信度",
    "sessionSummary" := "会话摘要",
    "itemsScanned" := "已扫描物品",
    "averageFreshness" := "平均新鲜度",
    "recommendations" := "建议",
    "startSession" := "开始会话",
    "completeSession" := "完成会话",
    "clearAll" := "清除全部",
    "viewHistory" := "查看历史",
    "buyRecommended" := "推荐购买",
    "checkCarefully" := "仔细检查",
    "avoidItem" := "避免此物品"
  ]

  const EsTable: map<string, string> := map[
    "loading" := "Cargando...",
    "error" := "Error",
    "close" := "Cerrar",
    "back" := "Atrás",
    "next" := "Siguiente",
    "complete" := "Completar",
    "appTitle" := "FruitAI",
    "appSubtitle" := "Escáner de Frescura con IA",
    "storeSession" := "Sesión de Tienda",
    "fridgeCheck" := "Revisar Nevera",
    "pantryCheck" := "Escanear Despensa",
    "dashboard" := "Panel",
    "storeSessionDesc" := "Escanea múltiples artículos mientras compras para comparar frescura y hacer las mejores elecciones",
    "fridgeCheckDesc" := "Monitorea lo que necesita usarse pronto y rastrea la frescura de productos almacenados",
    "pantryCheckDesc" := "Mantén registro de artículos almacenados y recibe alertas cuando necesiten atención",
    "scanningTitle" := "Sesión de Escaneo",
    "stabilizeCamera" := "Mantén la cámara estable para detectar artículos",
    "detectingItems" := "Detectando artículos...",
    "analyzing" := "Analizando frescura...",
    "foundItems" := "Se encontraron {count} artículos",
    "tapToCapture" := "Toca para capturar",
    "autoCapturing" := "Auto-capturando en {seconds}s",
    "freshness" := "Frescura",
    "recommendation" := "Recomendación",
    "buy" := "Comprar",
    "check" := "Revisar",
    "avoid" := "Evitar",
    "confidence" := "Confianza",
    "sessionSummary" := "Resumen de Sesión",
    "itemsScanned" := "Artículos Escaneados",
    "averageFreshness" := "Frescura Promedio",
    "recommendations" := "Recomendaciones",
    "startSession" := "Iniciar Sesión",
    "completeSession" := "Completar Sesión",
    "clearAll" := "Limpiar Todo",
    "viewHistory" := "Ver Historial",
    "buyRecommended" := "Recomendado Comprar",
    "checkCarefully" := "Revisar Cuidadosamente",
    "avoidItem" := "Evitar Este Artículo"
  ]

  const FrTable: map<string, string> := map[
    "loading" := "Chargement...",
    "error" := "Erreur",
    "close" := "Fermer",
    "back" := "Retour",
    "next" := "Suivant",
    "complete" := "Terminer",
    "appTitle" := "FruitAI",
    "appSubtitle" := "Scanner de Fraîcheur IA",
    "storeSession" := "Session Magasin",
    "fridgeCheck" := "Vérifier Frigo",
    "pantryCheck" := "Scanner Garde-manger",
    "dashboard" := "Tableau de bord",
    "storeSessionDesc" := "Scannez plusieurs articles en faisant vos courses pour comparer la fraîcheur et faire les meilleurs choix",
    "fridgeCheckDesc" := "Surveillez ce qui doit être utilisé bientôt et suivez la fraîcheur des produits stockés",
    "pantryCheckDesc" := "Gardez une trace des articles stockés et recevez des alertes quand ils ont besoin d'attention",
    "scanningTitle" := "Session de Scan",
    "stabilizeCamera" := "Tenez la caméra stable pour détecter les articles",
    "detectingItems" := "Détection d'articles...",
    "analyzing" := "Analyse de la fraîcheur...",
    "foundItems" := "{count} articles trouvés",
    "tapToCapture" := "Toucher pour capturer",
    "autoCapturing" := "Auto-capture dans {seconds}s",
    "freshness" := "Fraîcheur",
    "recommendation" := "Recommandation",
    "buy" := "Acheter",
    "check" := "Vérifier",
    "avoid" := "Éviter",
    "confidence" := "Confiance",
    "sessionSummary" := "Résumé de Session",
    "itemsScanned" := "Articles Scannés",
    "averageFreshness" := "Fraîcheur Moyenne",
    "recommendations" := "Recommandations",
    "startSession" := "Commencer Session",
    "completeSession" := "Terminer Session",
    "clearAll" := "Tout Effacer",
    "viewHistory" := "Voir Historique",
    "buyRecommended" := "Recommandé d'Acheter",
    "checkCarefully" := "Vérifier Soigneusement",
    "avoidItem" := "Éviter Cet Article"
  ]

}
